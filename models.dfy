/** The model client (app/core/models.py): resolving the generation
    settings, projecting the outbound messages to their contents, and
    turning the outcome of the remote call into a reply. The remote call
    itself is a parameter. The floating-point settings are of an opaque type
    `F`: they are only passed along. */
module Models {

  import opened Optionals
  import opened PyStr
  import opened Memory

  /** The model section of the settings. */
  datatype ModelSettings<F> = ModelSettings(
    modelName: string,
    temperature: F,
    maxOutputTokens: int,
    topP: F,
    topK: int)

  /** The generation configuration sent with the request. */
  datatype GenerationConfig<F> = GenerationConfig(
    temperature: F,
    maxOutputTokens: int,
    topP: F,
    topK: int)

  /** What `getattr(response, "text", "")` finds: no attribute at all (so the
      default `""`), the attribute set to `None`, or a string. */
  datatype TextAttribute = Absent | NoneValue | Text(value: string)

  /** The outcome of the remote call: a response, or an exception. */
  datatype CallOutcome = Returned(text: TextAttribute) | Raised

  /** The remote call: model name, contents and configuration to an outcome. */
  type Sdk<!F> = (string, seq<string>, GenerationConfig<F>) -> CallOutcome

  /** The reply when the model's text is missing or blank. */
  const EmptyFallback: string :=
    "I could not generate a response right now. " + "Please try again in a moment."

  /** The reply when the remote call fails. */
  const ErrorFallback: string :=
    "I ran into an issue while generating your answer. "
      + "Please try rephrasing your question or try again."

  /** `x if x is not None else default` */
  function Resolve<T>(x: Option<T>, default: T): (r: T)
    ensures x.Some? ==> r == x.value
    ensures x.None? ==> r == default
  {
    match x
    case Some(v) => v
    case None => default
  }

  /** The generation configuration: temperature and token limit from the
      overrides when given, the configured values otherwise; `top_p` and
      `top_k` always configured. */
  function BuildGenerationConfig<F>(cfg: ModelSettings<F>, temperature: Option<F>, maxOutputTokens: Option<int>)
    : (g: GenerationConfig<F>)
    ensures temperature.Some? ==> g.temperature == temperature.value
    ensures temperature.None? ==> g.temperature == cfg.temperature
    ensures maxOutputTokens.Some? ==> g.maxOutputTokens == maxOutputTokens.value
    ensures maxOutputTokens.None? ==> g.maxOutputTokens == cfg.maxOutputTokens
    ensures g.topP == cfg.topP && g.topK == cfg.topK
  {
    GenerationConfig(
      Resolve(temperature, cfg.temperature),
      Resolve(maxOutputTokens, cfg.maxOutputTokens),
      cfg.topP,
      cfg.topK)
  }

  /** `[m["content"] for m in messages]`: the contents, in order; the roles
      are not sent. */
  function Contents(messages: seq<MessageDict>): (cs: seq<string>)
    ensures |cs| == |messages|
    ensures forall i :: 0 <= i < |cs| ==> cs[i] == messages[i].content
  {
    seq(|messages|, i requires 0 <= i < |messages| => messages[i].content)
  }

  /** Two message lists with the same contents look the same to the remote
      call, whatever their roles. */
  lemma ContentsIgnoreRoles(a: seq<MessageDict>, b: seq<MessageDict>)
    requires |a| == |b|
    requires forall i :: 0 <= i < |a| ==> a[i].content == b[i].content
    ensures Contents(a) == Contents(b)
  {
  }

  /** The reply the `try` block and its handler produce for an outcome: the
      stripped text when it is not empty, the empty-response fallback when
      the text is missing or blank, and the error fallback when the call
      raised, or when the text is `None` (then `.strip()` raises inside the
      `try`). The reply is never empty and has no surrounding whitespace. */
  function ChooseReply(outcome: CallOutcome): (reply: string)
    ensures outcome.Raised? ==> reply == ErrorFallback
    ensures outcome == Returned(NoneValue) ==> reply == ErrorFallback
    ensures outcome == Returned(Absent) ==> reply == EmptyFallback
    ensures outcome.Returned? && outcome.text.Text? && Strip(outcome.text.value) == "" ==>
      reply == EmptyFallback
    ensures outcome.Returned? && outcome.text.Text? && Strip(outcome.text.value) != "" ==>
      reply == Strip(outcome.text.value)
    ensures reply != ""
    ensures Strip(reply) == reply
  {
    FallbacksStripped();
    match outcome
    case Raised => ErrorFallback
    case Returned(NoneValue) => ErrorFallback
    case Returned(Absent) => var text := Strip(""); if text == "" then EmptyFallback else text
    case Returned(Text(s)) =>
      StripIdempotent(s);
      var text := Strip(s);
      if text == "" then EmptyFallback else text
  }

  lemma FallbacksStripped()
    ensures Strip(EmptyFallback) == EmptyFallback
    ensures Strip(ErrorFallback) == ErrorFallback
  {
    var a, b := "I could not generate a response right now. ", "Please try again in a moment.";
    assert a[0] == 'I' && b[|b| - 1] == '.';
    JoinedUnchanged(a, b);
    ErrorFallbackStripped();
  }

  lemma ErrorFallbackStripped()
    ensures Strip(ErrorFallback) == ErrorFallback
  {
    var c0, c1 := "I ran into an issue ", "while generating your answer. ";
    var d := "Please try rephrasing your question or try again.";
    assert c0[0] == 'I' && d[|d| - 1] == '.';
    assert (c0 + c1)[0] == 'I';
    JoinedUnchanged(c0 + c1, d);
  }

  /** Two pieces joined with no whitespace at the outer ends strip to
      their join. */
  lemma JoinedUnchanged(a: string, b: string)
    requires a != [] && b != [] && !IsWhitespace(a[0]) && !IsWhitespace(b[|b| - 1])
    ensures Strip(a + b) == a + b
  {
    StripUnchanged(a + b);
  }

  /** The caller can tell a failed call from an answer only by the string:
      unless the model's own text is the error fallback, the reply is the
      error fallback exactly when the call failed. */
  lemma ErrorFallbackMeansFailure(outcome: CallOutcome)
    requires outcome.Returned? && outcome.text.Text? ==> Strip(outcome.text.value) != ErrorFallback
    ensures ChooseReply(outcome) == ErrorFallback <==> outcome.Raised? || outcome == Returned(NoneValue)
  {
  }

  /** `generate_chat_completion(messages, temperature, max_output_tokens)`:
      the remote call receives the configured model name, the contents of
      the messages and the resolved configuration, and whatever it does the
      reply is a non-empty stripped string. */
  function GenerateChatCompletion<F>(
    settings: ModelSettings<F>,
    sdk: Sdk<F>,
    messages: seq<MessageDict>,
    temperature: Option<F>,
    maxOutputTokens: Option<int>): (reply: string)
    ensures reply != "" && Strip(reply) == reply
    ensures reply == ChooseReply(sdk(settings.modelName, Contents(messages),
                                     BuildGenerationConfig(settings, temperature, maxOutputTokens)))
  {
    var config := BuildGenerationConfig(settings, temperature, maxOutputTokens);
    var outcome := sdk(settings.modelName, Contents(messages), config);
    ChooseReply(outcome)
  }
}
