/** The orchestrator (app/services/chat_service.py): one user turn through
    sanitising, memory, prompt assembly, the model client and the token
    estimate. The client is a parameter, so any implementation of
    `generate_chat_completion` can be plugged in. */
module ChatService {

  import opened Optionals
  import opened PyStr
  import opened Utils
  import opened Memory
  import opened Prompts
  import opened Models

  /** `generate_chat_completion(messages, temperature, max_output_tokens)` */
  type Client<!F> = (seq<MessageDict>, Option<F>, Option<int>) -> string

  /** Everything one turn computes, in the order the orchestrator computes it. */
  datatype Turn = Turn(
    clean: string,                  // the sanitised user message
    history: seq<MessageDict>,      // the memory snapshot after the user turn is added
    outbound: seq<MessageDict>,     // the messages handed to the client
    inputTokens: nat,               // the estimate for the outbound contents
    reply: string,                  // the client's answer
    memoryAfter: seq<ChatMessage>,  // the memory after the assistant turn is added
    total: nat)                     // the estimate returned to the caller

  /** The turn `handle_user_message` performs on a memory holding `messages`
      with limit `maxHistory`. */
  function PlanTurn<F>(
    p: PromptSettings,
    client: Client<F>,
    userMessage: string,
    messages: seq<ChatMessage>,
    maxHistory: int,
    temperature: Option<F>,
    maxOutputTokens: Option<int>): (t: Turn)
    ensures |t.clean| <= DefaultMaxLength
    ensures |t.outbound| == |t.history| + 2
    ensures t.outbound[0] == MessageDict("user", BuildSystemPrompt(p))
    ensures t.outbound[|t.outbound| - 1] == MessageDict("user", t.clean)
    ensures t.reply == client(t.outbound, temperature, maxOutputTokens)
    ensures 0 <= maxHistory ==> t.memoryAfter != [] && t.memoryAfter[|t.memoryAfter| - 1] == ChatMessage("assistant", t.reply)
  {
    var clean := SanitizeUserInput(userMessage, DefaultMaxLength);
    var afterUser := AfterAdd(messages, ChatMessage("user", clean), maxHistory);
    var history := DictsOf(afterUser);
    var outbound := Messages(p, history, clean);
    var inputTokens := ApproximateTokenCount(Contents(outbound));
    var reply := client(outbound, temperature, maxOutputTokens);
    var memoryAfter := AfterAdd(afterUser, ChatMessage("assistant", reply), maxHistory);
    Turn(clean, history, outbound, inputTokens, reply, memoryAfter,
         inputTokens + ApproximateTokenCount([reply]))
  }

  /** `handle_user_message(user_message, memory, temperature, max_output_tokens)`:
      adds the sanitised user turn, builds the messages from the memory after
      that add, asks the client, adds the reply as an assistant turn, and
      returns the reply with the input and output estimates added up. */
  method HandleUserMessage<F>(
    p: PromptSettings,
    client: Client<F>,
    userMessage: string,
    memory: SessionMemory,
    temperature: Option<F>,
    maxOutputTokens: Option<int>)
    returns (reply: string, total: nat)
    modifies memory
    ensures var t := PlanTurn(p, client, userMessage, old(memory.messages), old(memory.maxHistory),
                              temperature, maxOutputTokens);
      && reply == t.reply
      && total == t.total
      && memory.messages == t.memoryAfter
    ensures memory.maxHistory == old(memory.maxHistory)
  {
    var cleanMessage := SanitizeUserInput(userMessage, DefaultMaxLength);
    memory.AddMessage("user", cleanMessage);
    var historyDicts := memory.ToDicts();
    var messages := BuildMessages(p, historyDicts, cleanMessage);
    var estTokensIn := ApproximateTokenCount(Contents(messages));
    reply := client(messages, temperature, maxOutputTokens);
    memory.AddMessage("assistant", reply);
    var estTokensOut := ApproximateTokenCount([reply]);
    total := estTokensIn + estTokensOut;
  }

  /** The memory receives the user turn and then the assistant turn: with a
      positive limit it ends as the newest `maxHistory` turns of the old
      memory followed by those two. */
  lemma TurnMemoryWindow<F>(
    p: PromptSettings, client: Client<F>, userMessage: string,
    messages: seq<ChatMessage>, maxHistory: int,
    temperature: Option<F>, maxOutputTokens: Option<int>)
    requires maxHistory >= 1
    ensures var t := PlanTurn(p, client, userMessage, messages, maxHistory, temperature, maxOutputTokens);
      && t.clean == SanitizeUserInput(userMessage, DefaultMaxLength)
      && t.reply == client(t.outbound, temperature, maxOutputTokens)
      && t.memoryAfter
         == LastN(messages + [ChatMessage("user", t.clean), ChatMessage("assistant", t.reply)], maxHistory)
      && |t.memoryAfter| <= maxHistory
  {
    var t := PlanTurn(p, client, userMessage, messages, maxHistory, temperature, maxOutputTokens);
    var adds := [ChatMessage("user", t.clean), ChatMessage("assistant", t.reply)];
    assert adds[..1] == [adds[0]] && adds[..1][..0] == [];
    assert AddAll(messages, adds[..1], maxHistory) == AfterAdd(messages, adds[0], maxHistory);
    assert AddAll(messages, adds, maxHistory)
        == AfterAdd(AddAll(messages, adds[..1], maxHistory), adds[1], maxHistory);
    AddAllIsWindow(messages, adds, maxHistory);
  }

  /** With room for two turns, the memory ends with the user turn and then
      the assistant turn. */
  lemma TurnEndsWithBothTurns<F>(
    p: PromptSettings, client: Client<F>, userMessage: string,
    messages: seq<ChatMessage>, maxHistory: int,
    temperature: Option<F>, maxOutputTokens: Option<int>)
    requires maxHistory >= 2
    ensures var t := PlanTurn(p, client, userMessage, messages, maxHistory, temperature, maxOutputTokens);
      var n := |t.memoryAfter|;
      && n >= 2
      && t.memoryAfter[n - 2] == ChatMessage("user", SanitizeUserInput(userMessage, DefaultMaxLength))
      && t.memoryAfter[n - 1] == ChatMessage("assistant", t.reply)
  {
    TurnMemoryWindow(p, client, userMessage, messages, maxHistory, temperature, maxOutputTokens);
  }

  /** From an empty memory the turn leaves exactly the two new entries, with
      any limit of at least two, and with the limit zero, which never trims. */
  lemma TurnFromEmptyMemory<F>(
    p: PromptSettings, client: Client<F>, userMessage: string, maxHistory: int,
    temperature: Option<F>, maxOutputTokens: Option<int>)
    requires maxHistory >= 2 || maxHistory == 0
    ensures var t := PlanTurn(p, client, userMessage, [], maxHistory, temperature, maxOutputTokens);
      t.memoryAfter == [ChatMessage("user", SanitizeUserInput(userMessage, DefaultMaxLength)),
                        ChatMessage("assistant", t.reply)]
  {
    var t := PlanTurn(p, client, userMessage, [], maxHistory, temperature, maxOutputTokens);
    AddTwoToEmpty(ChatMessage("user", t.clean), ChatMessage("assistant", t.reply), maxHistory);
  }

  /** The history is taken after the user turn is added, so the outbound list
      is the system prompt, the memory, and the sanitised message once more:
      the newest user turn is sent twice. A negative limit can empty the
      memory and so is excluded. */
  lemma TurnSendsUserMessageTwice<F>(
    p: PromptSettings, client: Client<F>, userMessage: string,
    messages: seq<ChatMessage>, maxHistory: int,
    temperature: Option<F>, maxOutputTokens: Option<int>)
    requires maxHistory >= 0
    ensures var t := PlanTurn(p, client, userMessage, messages, maxHistory, temperature, maxOutputTokens);
      var clean := SanitizeUserInput(userMessage, DefaultMaxLength);
      var n := |t.outbound|;
      && t.history == DictsOf(AfterAdd(messages, ChatMessage("user", clean), maxHistory))
      && n == |t.history| + 2
      && t.outbound[0] == MessageDict("user", BuildSystemPrompt(p))
      && t.outbound[n - 2] == MessageDict("user", clean)
      && t.outbound[n - 1] == MessageDict("user", clean)
  {
    var clean := SanitizeUserInput(userMessage, DefaultMaxLength);
    var afterUser := AfterAdd(messages, ChatMessage("user", clean), maxHistory);
    AddKeepsNewest(messages, ChatMessage("user", clean), maxHistory);
    MessagesRepeatNewest(p, DictsOf(afterUser), clean);
  }

  /** The returned total is the estimate for all outbound contents plus the
      estimate for the reply, so never below the input estimate, and at most
      one token short of estimating both together. */
  lemma TurnTokenTotal<F>(
    p: PromptSettings, client: Client<F>, userMessage: string,
    messages: seq<ChatMessage>, maxHistory: int,
    temperature: Option<F>, maxOutputTokens: Option<int>)
    ensures var t := PlanTurn(p, client, userMessage, messages, maxHistory, temperature, maxOutputTokens);
      && t.inputTokens == ApproximateTokenCount(Contents(t.outbound))
      && t.total == t.inputTokens + ApproximateTokenCount([t.reply])
      && t.inputTokens <= t.total
      && t.total <= ApproximateTokenCount(Contents(t.outbound) + [t.reply])
      && ApproximateTokenCount(Contents(t.outbound) + [t.reply]) <= t.total + 1
  {
    var t := PlanTurn(p, client, userMessage, messages, maxHistory, temperature, maxOutputTokens);
    TokenCountSplit(Contents(t.outbound), [t.reply]);
  }

  /** The outbound contents start with the system prompt and end with the
      sanitised message, so the input estimate covers both of them. */
  lemma TurnInputTokensCoverMessage<F>(
    p: PromptSettings, client: Client<F>, userMessage: string,
    messages: seq<ChatMessage>, maxHistory: int,
    temperature: Option<F>, maxOutputTokens: Option<int>)
    ensures var t := PlanTurn(p, client, userMessage, messages, maxHistory, temperature, maxOutputTokens);
      |BuildSystemPrompt(p)| + |t.clean| < 4 * t.inputTokens + 4
  {
    var t := PlanTurn(p, client, userMessage, messages, maxHistory, temperature, maxOutputTokens);
    TotalLengthCoversEnds(Contents(t.outbound));
  }

  /** A client that answers "Focus on X and Y.", an empty memory with the
      default limit and the question "What skills do I need?": the reply is
      that answer, the estimate is positive, and the memory holds the
      question and then the answer. */
  lemma TurnExample<F>(p: PromptSettings, temperature: Option<F>, maxOutputTokens: Option<int>)
    ensures
      var client: Client<F> := (ms, t, m) => "Focus on X and Y.";
      var t := PlanTurn(p, client, "What skills do I need?", [], DefaultMaxHistory, temperature, maxOutputTokens);
      && t.reply == "Focus on X and Y."
      && t.total > 0
      && t.memoryAfter == [ChatMessage("user", "What skills do I need?"),
                           ChatMessage("assistant", "Focus on X and Y.")]
  {
    var client: Client<F> := (ms, t, m) => "Focus on X and Y.";
    var question := "What skills do I need?";
    StripUnchanged(question);
    assert SanitizeUserInput(question, DefaultMaxLength) == question;
    TurnFromEmptyMemory(p, client, question, DefaultMaxHistory, temperature, maxOutputTokens);
    TurnInputTokensCoverMessage(p, client, question, [], DefaultMaxHistory, temperature, maxOutputTokens);
  }

  /** With the Gemini client plugged in, the reply of every turn is a
      non-empty stripped string, and it is what was stored as the assistant
      turn. */
  lemma TurnWithGeminiClient<F>(
    settings: ModelSettings<F>, sdk: Sdk<F>,
    p: PromptSettings, userMessage: string,
    messages: seq<ChatMessage>, maxHistory: int,
    temperature: Option<F>, maxOutputTokens: Option<int>)
    requires maxHistory >= 1
    ensures
      var client: Client<F> := (ms, t, m) => GenerateChatCompletion(settings, sdk, ms, t, m);
      var t := PlanTurn(p, client, userMessage, messages, maxHistory, temperature, maxOutputTokens);
      && t.reply != ""
      && Strip(t.reply) == t.reply
      && t.memoryAfter[|t.memoryAfter| - 1] == ChatMessage("assistant", t.reply)
  {
    var client: Client<F> := (ms, t, m) => GenerateChatCompletion(settings, sdk, ms, t, m);
    TurnMemoryWindow(p, client, userMessage, messages, maxHistory, temperature, maxOutputTokens);
  }
}
