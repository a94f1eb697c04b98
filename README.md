# Chat turn pipeline, modelled in Dafny

This project models the per-turn pipeline of a single-user chat front end
that relays messages to a hosted language model. One user turn runs as
follows:

1. The input is sanitised: stripped of surrounding whitespace, then cut to
   2000 characters.
2. The sanitised text is added to a bounded session memory as a `"user"` turn.
3. A message list is built: the system prompt as a user turn, the memory with
   `assistant` renamed to `model`, then the sanitised text once more.
4. The model client is called. It sends only the contents and turns every
   outcome into a non-empty reply.
5. The reply is stored as an `"assistant"` turn.
6. The reply is returned with a character-count token estimate.

Modules, one per source file, plus three small helpers:

- `PySlice` (pyslice.dfy): Python's `s[:stop]` and `s[start:]`, with negative
  and out-of-range bounds.
- `PyStr` (pystr.dfy): Python's `str.isspace` and argument-less `str.strip()`.
- `Optionals` (optionals.dfy): `Option`, for Python's `Optional` arguments.
- `Utils` (utils.dfy): the token estimate and the sanitiser
  (app/services/utils.py). Both are pure functions.
- `Memory` (memory.dfy): `ChatMessage`, and `SessionMemory` as a class
  (app/core/memory.py). Its `messages` field is reassigned by `AddMessage`
  and `Clear`; `AfterAdd` is the function that specifies `AddMessage`.
- `Prompts` (prompts.dfy): the system prompt, and the message list as a
  function (`Messages`) and as the source's append loop (`BuildMessages`)
  (app/core/prompts.py).
- `Models` (models.dfy): override resolution, the contents projection and the
  choice of reply (app/core/models.py). The remote call is a function
  parameter returning a `CallOutcome`.
- `ChatService` (chat_service.dfy): `HandleUserMessage`, a method that
  modifies the caller's `SessionMemory`. It is proved equal to the function
  `PlanTurn`, and the lemmas about the turn are stated over `PlanTurn`. The
  client is a function parameter.

Edge cases of the code that the model reproduces:

- `max_history` is a plain integer. The code trims with `messages[-max_history:]`.
  With a limit of 0 that slice is the whole list, so nothing is ever dropped.
  With a negative limit `-k` it becomes `[k:]`. The model keeps both
  behaviours. The sliding-window properties are proved for limits of 1 or more.
- Roles are arbitrary strings. The comment `# 'user' | 'assistant'` at
  app/core/memory.py:11 names two values, but the code does not enforce
  them. Any role other than `"user"` maps to `"model"`.
- A response whose `text` is `None` yields the error fallback, not the
  empty-response fallback. This is because `None.strip()` raises inside the `try`.
- The sanitiser is not idempotent. Cutting after stripping can leave
  whitespace at the end (`SanitizeNotIdempotent`).
- With a limit of 0 or more, the newest user turn is sent twice, because the
  history is read after it was added (`TurnSendsUserMessageTwice`). With a
  negative limit the add can drop it from the history.

## Model

| member | source | states |
|---|---|---|
| `PySlice.Normalize` | app/core/memory.py:28 | A Python slice bound is clamped to `0..len`, and a negative bound counts from the end. |
| `PySlice.Take` | app/services/utils.py:33 | `s[:stop]` is a prefix of `s`. A non-negative `stop` gives exactly `min(stop, len)` elements. |
| `PySlice.From` | app/core/memory.py:28 | `s[start:]` is a suffix of `s`. `s[-0:]` is all of `s`, and a negative `start` of `-k` gives the last `min(k, len)` elements. |
| `PyStr.IsWhitespace` | app/services/utils.py:33 | The code points `str.strip()` removes include space, tab, newline and carriage return, and exclude ASCII letters, digits and `.`. None lies above U+3000. |
| `PyStr.Strip` | app/services/utils.py:33 | `strip()` returns the slice between leading and trailing whitespace. Everything outside it is whitespace, and it has no whitespace at either end. It is empty exactly when the input is all whitespace. |
| `PyStr.StripUnchanged` | app/services/utils.py:33 | A string with no whitespace at either end strips to itself. |
| `PyStr.StripIdempotent` | app/services/utils.py:33 | Stripping twice equals stripping once. |
| `Utils.TotalLength` | app/services/utils.py:18 | The character total of one text is its length. Any non-empty list's total is at least the length of its first text. |
| `Utils.TotalLengthAppend` | app/services/utils.py:18 | The character total of two concatenated lists is the sum of their totals. |
| `Utils.TotalLengthCoversEnds` | app/services/utils.py:18 | The first and last texts together are no longer than the total. |
| `Utils.ApproximateTokenCount` | app/services/utils.py:7-19 | The estimate `n` is the total length divided by 4, rounded down: `4n <= total < 4n + 4`. |
| `Utils.TokenCountExamples` | app/services/utils.py:18-19 | The empty list gives 0, `["aaaa"]` gives 1 and `["aaa"]` gives 0. |
| `Utils.TokenCountMonotone` | app/services/utils.py:18-19 | Appending a text never lowers the estimate. |
| `Utils.TokenCountSplit` | app/services/utils.py:18-19 | Two lists estimated separately and added give the joint estimate or one less. |
| `Utils.SanitizeUserInput` | app/services/utils.py:22-33 | The result is a prefix of the stripped text, is at most `maxLength` long, and is the whole stripped text when that fits. A negative `maxLength` drops that many characters from the end. A non-empty result never starts with whitespace. |
| `Utils.SanitizeStripsExample` | app/services/utils.py:33 | `"  hi  "` with limit 10 gives `"hi"`. |
| `Utils.SanitizeTruncatesExample` | app/services/utils.py:33 | 100 `x` with limit 5 gives `"xxxxx"`. |
| `Utils.SanitizeNotIdempotent` | app/services/utils.py:33 | `"a b"` with limit 2 gives `"a "`, which sanitises again to `"a"`. |
| `Memory.AfterAdd` | app/core/memory.py:26-28 | The list after one add is at most one longer than before. A limit of at least 1 bounds its length. With a limit of 0 or more, the new turn is its last entry. |
| `Memory.AddAll` | app/core/memory.py:24-28 | A run of adds grows the memory by at most the number of adds. With a limit of 0 or more, the last turn added is the last entry. |
| `Memory.LastN` | app/core/memory.py:28 | Reference sliding window: the last `min(n, len)` elements, in order. |
| `Memory.AddIsWindow` | app/core/memory.py:24-28 | With a limit of at least 1, adding keeps the newest `maxHistory` turns of old-plus-new, in order. The length is at most the limit and the new turn is last, whatever the prior length. |
| `Memory.AddAppendsBelowLimit` | app/core/memory.py:26-27 | Below the limit, adding only appends. |
| `Memory.AddNeverTrimsAtZero` | app/core/memory.py:27-28 | With limit 0, `[-0:]` keeps everything, so adding only appends. |
| `Memory.AddKeepsNewest` | app/core/memory.py:26-28 | With a limit of 0 or more, the memory is never empty after an add and its last entry is the new turn. |
| `Memory.AddTwoToEmpty` | app/core/memory.py:26-28 | Two adds to an empty memory, with a limit of at least 2 or of 0, leave exactly those two turns in order. |
| `Memory.AddWithNegativeLimit` | app/core/memory.py:27-28 | With limit `-k`, adding keeps `appended[k:]`, or nothing when at most `k` turns remain. |
| `Memory.AddAllIsWindow` | app/core/memory.py:24-28 | After any non-empty run of adds, the memory is the newest `maxHistory` turns of everything added. It never holds more than the limit. |
| `Memory.DictsOf` | app/core/memory.py:30-32 | Same length, and the same roles and contents in the same order. |
| `Memory.SessionMemory.constructor` | app/core/memory.py:21-22 | A fresh memory is empty and has limit 15. |
| `Memory.SessionMemory.Create` | app/core/memory.py:15-22 | The dataclass constructor stores both given fields. |
| `Memory.SessionMemory.AddMessage` | app/core/memory.py:24-28 | The new list is `AfterAdd` of the old one and the limit is unchanged. With a limit of at least 1 the list is the sliding window. Below the limit, or with limit 0, the turn is only appended. |
| `Memory.SessionMemory.ToDicts` | app/core/memory.py:30-32 | Reads the memory without changing it, and returns one dictionary per turn with its role and content. |
| `Memory.SessionMemory.Clear` | app/core/memory.py:34-36 | The memory is empty afterwards, whatever it held, and the limit is unchanged. |
| `Prompts.BuildSystemPrompt` | app/core/prompts.py:15-24 | The prompt starts with the role and ends with a newline. Its length is the five field lengths plus 56. |
| `Prompts.SystemPromptLayout` | app/core/prompts.py:17-24 | The role comes first. Then come the labels `"\n\nDomain: "`, `"\n\nResponse style: "`, `"\n\nSafety:\n"` and `"\n\nOutput format:\n"`, each followed by its field, then a final `"\n"`. Each piece sits at the offset given by the lengths before it. |
| `Prompts.ProviderRole` | app/core/prompts.py:49 | The result is `"user"` or `"model"`, and it is `"user"` exactly when the role was `"user"`. |
| `Prompts.Messages` | app/core/prompts.py:41-55 | The list has history length plus 2 entries. Entry 0 is the system prompt as a user turn and the last entry is the new user message. Entry `i+1` is history entry `i` with its provider role and content. |
| `Prompts.MessagesRepeatNewest` | app/core/prompts.py:46-54 | When the history ends with the user turn `u`, the last two outbound entries are both `u` as a user turn. |
| `Prompts.MessagesUseProviderRoles` | app/core/prompts.py:46-52 | Every outbound role is `"user"` or `"model"`; `"assistant"` never appears. |
| `Prompts.BuildMessages` | app/core/prompts.py:41-55 | The append loop returns exactly `Messages`. |
| `Models.Resolve` | app/core/models.py:42-47 | The override is used when it is not `None`, else the default. |
| `Models.BuildGenerationConfig` | app/core/models.py:40-50 | Temperature and token limit come from the overrides when given, else from the settings. `top_p` and `top_k` always come from the settings. |
| `Models.Contents` | app/core/models.py:55 | The contents of the messages: same length and order, no roles. |
| `Models.ContentsIgnoreRoles` | app/core/models.py:55 | Lists that differ only in roles send the same contents. |
| `Models.ChooseReply` | app/core/models.py:52-72 | Non-blank text gives the stripped text. Missing or blank text gives the "could not generate" fallback. A raise or a `None` text gives the "ran into an issue" fallback. The reply is never empty and is already stripped. |
| `Models.FallbacksStripped` | app/core/models.py:61-72 | Both fallback strings strip to themselves. |
| `Models.ErrorFallbackMeansFailure` | app/core/models.py:52-72 | Unless the model itself wrote the error fallback, the reply is the error fallback exactly when the call failed. |
| `Models.GenerateChatCompletion` | app/core/models.py:28-72 | The remote call receives the model name, the contents and the resolved configuration. The reply is non-empty and stripped. |
| `ChatService.PlanTurn` | app/services/chat_service.py:51-75 | The sanitised message is at most 2000 characters. The outbound list is the history plus 2: the system prompt first, the sanitised message last. The reply is the client's answer to that list with the overrides unchanged. With a limit of 0 or more, the memory ends with the reply as an assistant turn. |
| `ChatService.HandleUserMessage` | app/services/chat_service.py:32-75 | Reply, total and the new memory are those of `PlanTurn`: sanitise, add user turn, snapshot, build, estimate, call the client with the overrides unchanged, add assistant turn, add the estimates. The limit is unchanged. |
| `ChatService.TurnMemoryWindow` | app/services/chat_service.py:51-69 | With a limit of at least 1, the memory ends as the newest `maxHistory` turns of the old memory followed by the user turn and then the assistant turn, in that order. The reply is the client's answer. |
| `ChatService.TurnEndsWithBothTurns` | app/services/chat_service.py:52-69 | With a limit of at least 2, the last two entries are the sanitised user turn and then the assistant reply. |
| `ChatService.TurnFromEmptyMemory` | app/services/chat_service.py:52-69 | From empty memory, with a limit of at least 2 or of 0, the memory ends with exactly those two entries. |
| `ChatService.TurnSendsUserMessageTwice` | app/services/chat_service.py:51-58 | With a limit of 0 or more, the history is the memory after the user add, and the outbound list is 2 longer. The sanitised message is both the last entry and the one before it. |
| `ChatService.TurnTokenTotal` | app/services/chat_service.py:60-72 | The total is the outbound estimate plus the reply estimate. It is at least the input estimate and within one of the joint estimate. |
| `ChatService.TurnInputTokensCoverMessage` | app/services/chat_service.py:60 | The input estimate covers the system prompt and the sanitised message. |
| `ChatService.TurnExample` | app/services/chat_service.py:51-75 | Empty memory, "What skills do I need?" and a client answering "Focus on X and Y." give that reply and a positive total. The memory then holds exactly the question and the answer. |
| `ChatService.TurnWithGeminiClient` | app/services/chat_service.py:63-69 | With a limit of at least 1 and the model client plugged in, every reply is non-empty and stripped, and it is the last memory entry. |

## Left out

- The remote generation call and the construction of the SDK client
  (app/core/models.py:25 and 53-57) are foreign. They appear only as the
  function parameter `sdk` and the `CallOutcome` it returns.
- The SDK's configuration constructor, `types.GenerateContentConfig(...)`
  (app/core/models.py:41-50), runs before the `try`. It is assumed not to
  raise, and `BuildGenerationConfig` is total. An exception there would
  escape after the user turn was already stored
  (app/services/chat_service.py:52). The model does not capture that.
- Exceptions raised elsewhere inside the `try` are not modelled. Messages are
  records, so a dictionary without a `content` key cannot occur.
- Logging calls have no behaviour to state and are not modelled.
- Floating-point settings (`temperature`, `top_p`) are never computed on.
  They are an opaque type parameter `F`.
- `PromptBuilder`, `GeminiClient` and `ChatService` only store the settings
  they are built with. The model passes those settings, and the client, as
  parameters instead of holding them in objects.
- Configuration loading, including the missing-credential check
  (app/core/config.py), is file and environment I/O and is not modelled.
- The Streamlit UI (app/ui/layout.py), the session-state glue and the running
  token counter (app/main.py) are not modelled.
- `IsWhitespace` lists the code points Python's `str.isspace()` accepts, as a
  fixed table. No other Unicode data is modelled.
- `SessionMemory.messages` is a value sequence. In Python, `append` and
  `clear()` (app/core/memory.py:26 and 36) change the list in place. So a
  caller's list passed in through `SessionMemory(messages=...)` would change
  too. The model (`Create`) does not capture that aliasing. The
  application only ever builds `SessionMemory()` with a fresh list.
- Python's integer `int` results are unbounded, like Dafny's, so no
  wrap-around is modelled.
