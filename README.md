# Chat client core, modelled in Dafny

A browser chat client sends a conversation to a remote language model and
folds the reply back into the conversation. This project models three parts
of it:

- the **transcript controller** (`Chat`), which owns the transcript, the
  input box, the busy flag and the error text;
- the **request builder** (`ChatService.sendMessage`), which may append a JSON
  system instruction to the caller's message array, in place, and then builds
  the headers and the body of the POST;
- the **credential holder** (`CredentialsService`), which holds the
  `{apiUrl, apiKey}` pair of the selected model.

Each controller operation that calls the model is split in two:

- a dispatch method returns the arguments it hands to the request builder
  (`ModelCall`), and for a send also the clock reading at dispatch;
- a completion method takes the `Outcome` and the clock reading at completion.
  `Outcome` is either `Success(content, usage)` or
  `Failure(errMessage, status)`.

Files:

- `chat_types.dfy` holds the message and reply shapes.
- `text.dfy` holds JavaScript's `trim` and `includes`.
- `chat_text.dfy` holds the pure parts of the controller: the fixed texts, the
  choice of error text, and the dialogue formatting.
- `chat_controller.dfy` holds the `Chat` class.
- `chat_service.dfy` holds the request builder.
- `credentials.dfy` holds the credential holder.

The model follows the code as written, including two points a reader might
not expect:

- **A failed summary replaces the transcript too.** On failure, the summary
  path substitutes a fallback response (`chat.ts:141`). That response goes
  through the same step that replaces the whole transcript
  (`chat.ts:145-153`). So a failed summary also leaves one system entry,
  holding the tag and `Резюме недоступно.`. History is not kept.
- **The two files disagree on the service's signature.** The controller calls
  the request builder with `(messages, mode, temperature)` (`chat.ts:78`). The
  request builder as written takes `(messages, jsonAnswer)` and reads its URL
  and key from the environment, not from the credential holder. Each file is
  modelled as written. From the controller's side the service is opaque.

## Model

| member | source | states |
|---|---|---|
| `Text.TrimStart` | src/app/components/chat/chat.ts:34-35 | the result is a suffix of the input and does not start with whitespace |
| `Text.TrimStartDropsWhitespace` | src/app/components/chat/chat.ts:34-35 | everything the leading trim drops is whitespace |
| `Text.TrimEnd` | src/app/components/chat/chat.ts:34-35 | the result is a prefix of the input and does not end with whitespace |
| `Text.TrimEndDropsWhitespace` | src/app/components/chat/chat.ts:34-35 | everything the trailing trim drops is whitespace |
| `Text.Trim` | src/app/components/chat/chat.ts:34-35 | `trim()` gives a string with no whitespace at either end; `TrimSurrounded` and `TrimUnique` place it in the input |
| `Text.TrimSurrounded` | src/app/components/chat/chat.ts:34-35 | the trimmed string occurs in the input with nothing but whitespace before and after it |
| `Text.TrimUnique` | src/app/components/chat/chat.ts:34-35 | the trimmed string is exactly the middle part whenever the input is whitespace, then a part with no outer whitespace, then whitespace |
| `Text.BlankIffAllWhitespace` | src/app/components/chat/chat.ts:34 | the blank-input guard `IsBlank` (`!userInput.trim()`) holds exactly when every character of the input is whitespace |
| `Text.TrimIdempotent` | src/app/components/chat/chat.ts:35 | trimming already-trimmed content changes nothing |
| `Text.Contains` | src/app/components/chat/chat.ts:84 | `includes` is true exactly when the marker occurs at some position of the message |
| `ChatText.ErrorText` | src/app/components/chat/chat.ts:82-88 | the context-limit text exactly when the error message contains `context length` or `Input too long`; otherwise the invalid-key text exactly when the status is 401; otherwise the generic text |
| `ChatText.Turns` | src/app/components/chat/chat.ts:120-121 | an entry is in the filtered list exactly when it is in the transcript and is a user or assistant entry, and the list is no longer than the transcript; `TurnsAppend` gives the order |
| `ChatText.TurnsAppend` | src/app/components/chat/chat.ts:120-121 | filtering commutes with concatenation, so turns keep their original order |
| `ChatText.Line` | src/app/components/chat/chat.ts:122 | a turn's line is longer than its content and ends with the content verbatim |
| `ChatText.LineRoundTrip` | src/app/components/chat/chat.ts:122 | a turn's `"<label>: <content>"` line can be read back into its role and its content |
| `ChatText.JoinAppend` | src/app/components/chat/chat.ts:123 | joining two non-empty lists is joining each, with the separator between them |
| `ChatText.JoinEnds` | src/app/components/chat/chat.ts:123 | a join of a non-empty list starts with its first element and ends with its last |
| `ChatText.DialogueEnds` | src/app/components/chat/chat.ts:120-123 | a dialogue with turns opens with the first turn's line and closes with the last turn's line |
| `ChatText.DialogueAppend` | src/app/components/chat/chat.ts:120-123 | the dialogue of a concatenation is the parts' dialogues, with a blank line between them when both are non-empty |
| `ChatText.DialogueSnoc` | src/app/components/chat/chat.ts:120-123 | appending a turn appends its line after a blank line, or yields just that line when there was no earlier turn |
| `ChatText.DialogueSingle` | src/app/components/chat/chat.ts:120-123 | a single entry contributes its line if it is a turn, and nothing if it is a system entry |
| `ChatText.DialogueSkipsSystem` | src/app/components/chat/chat.ts:120-123 | a system entry anywhere in the transcript leaves the dialogue unchanged |
| `ChatText.DialogueEmptyIff` | src/app/components/chat/chat.ts:120-123 | the dialogue is empty exactly when the transcript has no user or assistant entry |
| `ChatText.SummaryPromptQuotesDialogue` | src/app/components/chat/chat.ts:125-130 | the summary prompt is the fixed instruction followed by the dialogue verbatim, and a system entry added to the transcript does not change it |
| `ChatTypes.Fresh` | src/app/components/chat/chat.ts:68-69 | a new entry keeps the given role and content and has no usage and no time |
| `ChatController.ReplyEntry` | src/app/components/chat/chat.ts:92-110 | the entry a completed send appends is always an assistant entry stamped with the elapsed time; after a success it holds the reply's content and usage, after a failure the apology and no usage |
| `ChatController.Chat.constructor` | src/app/components/chat/chat.ts:19-31 | starts with an empty transcript, empty input, not busy, no error, no mode, temperature 0.7 and model `Gemini_2_0_Flash`, whose credentials are selected |
| `ChatController.Chat.SetModel` | src/app/components/chat/chat.ts:28-30 | changing the model selects that model's credentials and leaves the transcript state alone |
| `ChatController.Chat.AddMessage` | src/app/components/chat/chat.ts:68-71 | appends exactly one entry with no usage and no time, and keeps every earlier entry |
| `ChatController.Chat.SendMessage` | src/app/components/chat/chat.ts:33-39 | blank input changes nothing and dispatches nothing; otherwise it clears the input, appends one user entry holding the trimmed input, goes busy, clears the error and dispatches the transcript with the current mode and temperature |
| `ChatController.Chat.SendSystemPromptMessage` | src/app/components/chat/chat.ts:41-47 | validates the same way and appends one system entry; it never touches the busy flag or the error |
| `ChatController.Chat.SendBookFirstMessage` | src/app/components/chat/chat.ts:49-53 | dispatches a transcript of exactly one user entry holding the fixed book opener |
| `ChatController.Chat.ClearChat` | src/app/components/chat/chat.ts:55-58 | always leaves an empty transcript and no error, independent of the prior state, so it is idempotent |
| `ChatController.Chat.SendToModel` | src/app/components/chat/chat.ts:73-78 | goes busy, clears the error and dispatches the unchanged transcript together with the start time |
| `ChatController.Chat.CompleteReply` | src/app/components/chat/chat.ts:80-111 | appends exactly one assistant entry and keeps all earlier ones; on success it carries the reply, its usage and the elapsed time; on failure it carries the apology, no usage and the elapsed time, and the error is set by the precedence above; the controller ends idle |
| `ChatController.Chat.SummarizeChat` | src/app/components/chat/chat.ts:114-135 | an empty transcript changes nothing and dispatches nothing; otherwise it goes busy, clears the error and sends one user message, the instruction followed by the dialogue, with no mode and temperature 0 |
| `ChatController.Chat.CompleteSummary` | src/app/components/chat/chat.ts:136-156 | on success and on failure alike the transcript becomes one system entry holding the tag and the summary; on failure the summary is the fallback and the summary error is set; the controller ends idle |
| `ChatController.SendAndReply` | src/app/components/chat/chat.ts:33-111 | within the controller, a non-blank send followed by its completion grows the transcript by exactly two entries, first the user entry and then the reply entry, keeping every earlier entry; the input ends empty, the controller ends idle, the error is none after a success and the classified text after a failure, and mode, temperature and model are unchanged |
| `ChatService.MessageArray.Push` | src/app/services/chat.service.ts:37 | `push` adds one element at the end and keeps every existing element in its position |
| `ChatService.ChatService.SendMessage` | src/app/services/chat.service.ts:30-46 | without `jsonAnswer` the caller's array is left as it was; with it, the array grows by exactly the JSON system instruction at its end; the old contents are always a prefix; the body holds the caller's own array object and the model `DeepSeek V3.2-Exp`; the headers are the bearer headers of the stored key |
| `ChatService.BearerHeaders` | src/app/services/chat.service.ts:31-34 | `Content-Type` is `application/json`, and `Authorization` is `Bearer ` followed by the key |
| `ChatService.BearerRoundTrip` | src/app/services/chat.service.ts:32 | reading the key back from the `Authorization` header gives exactly the stored key |
| `ChatService.BearerHeadersInjective` | src/app/services/chat.service.ts:31-34 | different keys give different headers |
| `Credentials.CredentialsService.constructor` | src/app/services/credentials.service.ts:9-10 | initially the pair is the `DeepSeek_V3_2` entry of the model table |
| `Credentials.CredentialsService.SetCredentials` | src/app/services/credentials.service.ts:12-16 | for a model in the table, the pair becomes exactly that model's entry; the new state depends only on the argument |
| `Credentials.CredentialsService.GetCredentials` | src/app/services/credentials.service.ts:18-23 | returns a new pair built from the two fields and changes nothing |
| `Credentials.SwitchModel` | src/app/services/credentials.service.ts:12-23 | after a switch, reading gives the new model's entry and the service holds that entry; a pair read before the switch keeps the old model's entry, so the last selection wins |

## Left out

- `formatJson` (`chat.ts:60-66`) is left out. It only wraps `JSON.parse` and `JSON.stringify`, and JSON is not modelled.
- The HTTP post (`chat.service.ts:48`) is left out. `ChatService.SendMessage` returns the POST it would send instead.
- The RxJS plumbing (`pipe`, `catchError`, `finalize`, `subscribe`) is not modelled as such. Its effect is written out in the completion methods.
- Angular signals and effects are left out. The signals are plain fields. The model effect is `SetModel`, and it also runs once in the constructor.
- Console logging is left out.
- The clock is left out. `Date.now()` readings are passed in as `now` parameters.
- The environment is left out. The model table is a constructor argument of the credential holder. The service's `apiUrl` and `apiKey` are constructor arguments of the request builder.
- The `Model` enum is not part of this model. `Credentials.Model` names `Gemini_2_0_Flash` and `DeepSeek_V3_2`, plus `Other` for any further member.
- Temperature is an opaque `real`. It is passed through unchecked.
- Token counts and times are `int`. JavaScript numbers and their floating-point behaviour are not modelled.
- Overlapping sends are left out as a concern. Nothing stops a second dispatch while one is pending. Each completion appends to whatever the transcript is when it runs, and no ordering between completions is modelled.
- `ChatController.Chat.SendMessage`: the transcript is a value, not the shared array. So the model does not capture that the live array is handed to the request builder. Under the request builder as written, a JSON push would land in the transcript itself (`chat.ts:78` with `chat.service.ts:37`). The aliasing is modelled only in `ChatService`, through the caller-owned `MessageArray` object. The "grows by exactly two" property of `SendAndReply` holds for the controller alone.
- A reply with no choices is left out. `CompleteReply` and `CompleteSummary` take a `Success` that already carries the first choice's content. A reply without choices breaks the remote service's contract, and the client does not handle it.
- `Credentials.CredentialsService.SetCredentials`: the model is required to be in the table. A model missing from it makes the client throw a `TypeError` when it reads `apiKey` from `undefined` (`credentials.service.ts:13-14`). That throw is not modelled. The same `requires` is on `ChatController.Chat.SetModel`. The `Chat` constructor requires the table to hold the initial model. `Credentials.CredentialsService.constructor` requires it to hold `DeepSeek_V3_2`, whose entry the field initialisers read (`credentials.service.ts:9-10`).
- Strings are sequences of Unicode scalar values, while JavaScript strings are UTF-16 code units. `Text.Trim` and `Text.Contains` agree with `trim` and `includes` on every string that has a counterpart here. Strings holding a lone surrogate have no counterpart and are not modelled.
- `chat-storage.service.ts` (local-storage persistence) is not used by the controller, so it is left out.
- `app.ts` is only the root component shell, so it is left out.
