# Conversation controller of ChatGPT-DotNet, modelled in Dafny

This project models the core of a desktop chat client. The core is three small state machines over an ordered message transcript:

- **`ChatViewModel`** is the conversation controller. It holds the transcript of `ChatMessageViewModel` objects, the current-message pointer, the enabled flag, the settings and the cancellation source of the request in flight. The project models:
  - the prompt builder, where the welcome text at index 0 is replaced by the directions;
  - the response mapper;
  - the send cycle: validate, mark the sent message, append a "Sending..." assistant placeholder, resolve it, append the next empty user message;
  - the removal policy;
  - the `Add*Message` appenders;
  - cloning.
- **`ChatMessageViewModel`** is the message record. It has the edit state machine (`Edit`, `Cancel`, `NewLine`), the guarded send command and null-ignoring setters.
- **`MainViewModel`** is the legacy UI's send controller. In it, each prompt message links to the message that holds its completion.

Modules, leaf first:

| file | module | models |
|---|---|---|
| `wrappers.dfy` | `Wrappers` | nullable values (`Option`) |
| `strings.dfy` | `Strings` | `string.IsNullOrEmpty`, `IsNullOrWhiteSpace`, `Trim`, `Environment.NewLine` |
| `chat_message.dfy` | `ChatMessages` | `ChatMessageViewModel`: class `ChatMessage`, its edit transitions on values and lemmas about them |
| `chat_protocol.dfy` | `ChatProtocol` | the value-only parts of `ChatViewModel.cs`: prompt builder, request record, response mapper, API-key swap |
| `chat.dfy` | `Chat` | `ChatSettingsViewModel` (class `ChatSettings`) and `ChatViewModel` |
| `main_view.dfy` | `MainView` | `MainViewModel` with `SettingsViewModel` and `MessageViewModel` reduced to the fields it uses |

Classes hold the state that the source updates in place. Each mutating method's `ensures` states the whole new state. A message's fields are compared as one `MessageData` value through `Data()`.

## External inputs

The project does not run the awaited service calls. Each one becomes an input parameter:

- **`ChatViewModel`'s call** is a `TransportOutcome`:
  - `NoResponse`: no chat service, a null response from the service, or any swallowed exception, including cancellation;
  - `ErrorResponse(message?)`;
  - `SuccessResponse(firstContent?)`;
  - `OtherResponse`.

  A separate `cancelRequested` flag says whether cancellation was requested while the call was outstanding.
- **`MainViewModel`'s call** is a `CompletionOutcome`:
  - `ServiceThrew`: the call threw, and the exception escapes `Send`;
  - `NullResponse`;
  - `NoChoice`: no choices, or a null first choice;
  - `FirstChoice(text?)`.

Constants defined outside the modelled files are declared without a value: `Defaults.WelcomeMessage`, `Defaults.TextMessageFormat` and `Environment.NewLine`. Decimal settings are never computed on, so they are modelled as `real`.

## Behaviour worth noting

The model follows the code in each of these cases:

- **Return value on cancellation.** `SendAsync` returns `isError`. After a cycle that was not cancelled it returns `false`, even when the provider returned an error (`ChatGPT.Core/ViewModels/Chat/ChatViewModel.cs:204`). After a cancelled cycle it returns the mapped response's error flag. That flag is `true` whenever the cancelled call produced no response, because `GetResponseDataAsync` swallows every exception.
- **The placeholder on cancellation.** A cancelled cycle still resolves the assistant placeholder; it is not left awaiting. The only effect of cancellation is that no user message is appended.
- **Unknown response kinds.** A response that is neither an error nor a success maps to a null message with `IsError = false`. It is not treated as an error.
- **Removal.** `Remove` clears `IsSent` on whatever message is last after the removal, and also clears `CanRemove` when exactly two messages remain. It does both even when the removed message was not in the list.
- **Prompt without settings.** When there are no settings, the prompt builder substitutes `""` for the welcome text.
- **No cancel operation.** There is no separate public cancel operation. Cancellation is only requested by `Remove` on an awaiting message.
- **Exception paths in `MainViewModel.Send`.** Nothing catches an exception in `Send`. The completion call may throw (ChatGPT.UI/ViewModels/MainViewModel.cs:78), and a null response or a first choice whose text is null throws a null-reference exception (:93). The model captures both as `faulted`: the exception escapes with `IsEnabled` still false and the prompt message still awaiting. When the call itself throws, no result message has been appended yet.

## Model

| member | source | states |
|---|---|---|
| `Strings.IsWhiteSpace` | ChatGPT.Core/ViewModels/Chat/ChatViewModel.cs:374 | `char.IsWhiteSpace`, the test `string.Trim` strips by: the Unicode categories Zs, Zl and Zp plus U+0009..U+000D and U+0085 |
| `Strings.IsNullOrEmpty` | ChatGPT.Core/ViewModels/Chat/ChatViewModel.cs:154 | `string.IsNullOrEmpty`: null or the empty string; the send guards here and at ChatGPT.UI/ViewModels/MainViewModel.cs:44 rest on it |
| `Strings.IsNullOrWhiteSpace` | ChatGPT.Core/ViewModels/Chat/ChatViewModel.cs:312-331 | `string.IsNullOrWhiteSpace`: null or only white space; it decides whether the per-chat API key is installed and whether the prior key is restored |
| `Strings.TrimStart` | ChatGPT.Core/ViewModels/Chat/ChatViewModel.cs:374 | the result is a suffix of the input, everything cut off is white space, and it does not start with white space |
| `Strings.TrimEnd` | ChatGPT.Core/ViewModels/Chat/ChatViewModel.cs:374 | the result is a prefix of the input, everything cut off is white space, and it does not end with white space |
| `Strings.Trim` | ChatGPT.Core/ViewModels/Chat/ChatViewModel.cs:374 | neither end of the result is white space |
| `Strings.TrimSplits` | ChatGPT.Core/ViewModels/Chat/ChatViewModel.cs:374 | the result of Trim is the infix of the input left once white space is removed from both ends, and everything removed is white space |
| `Strings.TrimStartSkips` | ChatGPT.Core/ViewModels/Chat/ChatViewModel.cs:374 | leading white space does not affect TrimStart |
| `Strings.TrimEndSkips` | ChatGPT.Core/ViewModels/Chat/ChatViewModel.cs:374 | trailing white space does not affect TrimEnd |
| `Strings.TrimUnique` | ChatGPT.Core/ViewModels/Chat/ChatViewModel.cs:374 | white space + a string whose ends are not white space + white space trims to exactly the middle string |
| `Strings.TrimIdempotent` | ChatGPT.Core/ViewModels/Chat/ChatViewModel.cs:374 | trimming twice equals trimming once |
| `ChatMessages.ChatMessage.constructor` | ChatGPT/ViewModels/Chat/ChatMessageViewModel.cs:15-40 | a new message has null role, text and format, every flag false, and no send action |
| `ChatMessages.Sent` | ChatGPT/ViewModels/Chat/ChatMessageViewModel.cs:116-127 | the send command on field values: with no send action nothing changes and nothing is invoked; otherwise editing is cleared and the action is invoked exactly when the message is unsent |
| `ChatMessages.Edited` | ChatGPT/ViewModels/Chat/ChatMessageViewModel.cs:129-149 | the edit command on field values: "Edit", "Cancel" and "NewLine" select their transition; any other status, null included, leaves the fields as they are |
| `ChatMessages.Editing` | ChatGPT/ViewModels/Chat/ChatMessageViewModel.cs:151-157 | the "Edit" transition: a sent message that is not being edited starts editing; otherwise nothing changes |
| `ChatMessages.Canceled` | ChatGPT/ViewModels/Chat/ChatMessageViewModel.cs:159-165 | the "Cancel" transition: editing stops; nothing else changes |
| `ChatMessages.NewLined` | ChatGPT/ViewModels/Chat/ChatMessageViewModel.cs:167-174 | the "NewLine" transition: an unsent message gets the platform newline appended to its text, a null text counting as empty; a sent message is unchanged |
| `ChatMessages.ChatMessage.SetSendAction` | ChatGPT/ViewModels/Chat/ChatMessageViewModel.cs:202-205 | only the installed-send-action field changes |
| `ChatMessages.ChatMessage.SendAction` | ChatGPT/ViewModels/Chat/ChatMessageViewModel.cs:116-127 | no send action installed: nothing changes; otherwise editing is cleared and the action is invoked only if the message is unsent |
| `ChatMessages.ChatMessage.EditAction` | ChatGPT/ViewModels/Chat/ChatMessageViewModel.cs:129-149 | dispatches "Edit", "Cancel" and "NewLine" to their transitions; any other status changes nothing |
| `ChatMessages.ChatMessage.EditingState` | ChatGPT/ViewModels/Chat/ChatMessageViewModel.cs:151-157 | the new fields are the Edit transition of the old ones |
| `ChatMessages.ChatMessage.CanceledState` | ChatGPT/ViewModels/Chat/ChatMessageViewModel.cs:159-165 | the new fields are the Cancel transition of the old ones |
| `ChatMessages.ChatMessage.NewLineState` | ChatGPT/ViewModels/Chat/ChatMessageViewModel.cs:167-174 | the new fields are the NewLine transition of the old ones |
| `ChatMessages.ChatMessage.SetRoleAction` | ChatGPT/ViewModels/Chat/ChatMessageViewModel.cs:186-192 | null is ignored; otherwise exactly the role changes |
| `ChatMessages.ChatMessage.SetFormatAction` | ChatGPT/ViewModels/Chat/ChatMessageViewModel.cs:194-200 | null is ignored; otherwise exactly the format changes |
| `ChatMessages.ChatMessage.Copy` | ChatGPT.Core/ViewModels/Chat/ChatViewModel.cs:420 | a fresh message with equal fields |
| `ChatMessages.EditStartsOnlyOnSent` | ChatGPT/ViewModels/Chat/ChatMessageViewModel.cs:151-157 | after "Edit", the message is editing iff it was editing or is sent; no other field changes |
| `ChatMessages.CancelOnlyClearsEditing` | ChatGPT/ViewModels/Chat/ChatMessageViewModel.cs:159-165 | "Cancel" clears IsEditing and changes nothing else |
| `ChatMessages.EditThenCancel` | ChatGPT/ViewModels/Chat/ChatMessageViewModel.cs:151-165 | from a non-editing message, "Edit" followed by "Cancel" gives back the original fields |
| `ChatMessages.NewLineAppends` | ChatGPT/ViewModels/Chat/ChatMessageViewModel.cs:167-174 | "NewLine" appends the newline to an unsent message's text (null counts as empty), does nothing to a sent one, and changes no other field |
| `ChatMessages.UnknownStatusIgnored` | ChatGPT/ViewModels/Chat/ChatMessageViewModel.cs:129-149 | a status other than the three recognised ones changes nothing |
| `ChatMessages.EditKeepsProtocolState` | ChatGPT/ViewModels/Chat/ChatMessageViewModel.cs:129-174 | no edit command changes the role, the format or any send-protocol flag |
| `ChatMessages.SendInvokesOnlyUnsent` | ChatGPT/ViewModels/Chat/ChatMessageViewModel.cs:116-127 | the send action is invoked iff one is installed and the message is unsent; only IsEditing can change, and only when an action is installed |
| `ChatProtocol.FirstContent` | ChatGPT.Core/ViewModels/Chat/ChatViewModel.cs:273-281 | the content sent for the first message: its text, except that the unedited welcome text is replaced by the directions, or by "" when there are none |
| `ChatProtocol.BuildPrompt` | ChatGPT.Core/ViewModels/Chat/ChatViewModel.cs:263-299 | the reference prompt: one entry per message in order, with the message role, the first content at index 0 and the message text verbatim elsewhere |
| `ChatProtocol.PromptKeepsTranscript` | ChatGPT.Core/ViewModels/Chat/ChatViewModel.cs:263-299 | exactly one entry per message, in order; each entry has its message's role; entries after index 0 carry the text verbatim |
| `ChatProtocol.PromptFirstEntry` | ChatGPT.Core/ViewModels/Chat/ChatViewModel.cs:273-286 | at index 0: if the text equals the welcome text, the content is the directions, or "" when there are none; otherwise the content is the text itself |
| `ChatProtocol.PromptIsVerbatimButFirst` | ChatGPT.Core/ViewModels/Chat/ChatViewModel.cs:263-299 | the prompt is the verbatim transcript with at most the first content replaced; with no welcome text at index 0, it is fully verbatim |
| `ChatProtocol.RequestFor` | ChatGPT.Core/ViewModels/Chat/ChatViewModel.cs:343-352 | the request carries the settings' model, temperature and max tokens and the prompt; there is no suffix and no stop list, and top-p is fixed at 1.0 |
| `ChatProtocol.MapResponse` | ChatGPT.Core/ViewModels/Chat/ChatViewModel.cs:354-377 | only absent and error responses are errors; absent gives "Unknown error."; an error gives its message or "Unknown error."; success gives exactly the trimmed content, or "" when the content is absent; any other response gives a null message |
| `ChatProtocol.SuccessTextIsTrimmedContent` | ChatGPT.Core/ViewModels/Chat/ChatViewModel.cs:372-377 | a success whose content is a string padded with white space maps to exactly that string, not an error |
| `ChatProtocol.ApiKeyDuringCall` | ChatGPT.Core/ViewModels/Chat/ChatViewModel.cs:303-316 | the API-key variable during the service call: the per-chat key when a chat service exists and the key is not blank, otherwise the prior value |
| `ChatProtocol.ApiKeyAfterCall` | ChatGPT.Core/ViewModels/Chat/ChatViewModel.cs:303-331 | a non-blank prior API key is restored; a blank prior is never restored, so a non-blank per-chat key stays set after the call; with no service or a blank per-chat key, nothing changes |
| `Chat.ChatSettings.constructor` | ChatGPT.Core/ViewModels/Chat/ChatViewModel.cs:47-57 | the settings hold exactly the given values |
| `Chat.ChatSettings.Copy` | ChatGPT.Core/ViewModels/Chat/ChatViewModel.cs:438 | a fresh settings object with equal fields |
| `Chat.IndexOf` | ChatGPT.Core/ViewModels/Chat/ChatViewModel.cs:130 | the index of the first occurrence of the message (by reference) |
| `Chat.RemoveFirst` | ChatGPT.Core/ViewModels/Chat/ChatViewModel.cs:130 | the list without the first occurrence of the message; unchanged when the message is absent |
| `Chat.RemoveFirstRemovesOne` | ChatGPT.Core/ViewModels/Chat/ChatViewModel.cs:130 | removing a present message shortens the list by one and drops one occurrence of that message and nothing else; the other messages keep their relative order |
| `Chat.LastIndexOf` | ChatGPT.Core/ViewModels/Chat/ChatViewModel.cs:418-428 | the index of the last occurrence of the message, or none iff it is absent (null is always absent) |
| `Chat.LastIndexOfStep` | ChatGPT.Core/ViewModels/Chat/ChatViewModel.cs:418-428 | adding one message at the end changes the last occurrence of the current message only when the added message is the current one, and then it is the new position |
| `Chat.CopyAtStep` | ChatGPT.Core/ViewModels/Chat/ChatViewModel.cs:418-428 | after one more message is copied, the copy standing where the current message last occurs is the new copy when that message is the current one, and otherwise the copy found before |
| `Chat.AwaitingPlaceholder` | ChatGPT.Core/ViewModels/Chat/ChatViewModel.cs:226-235 | the "Sending..." assistant message: removable, unsent, awaiting, in the default text format, with the send action installed |
| `Chat.ResolvedPlaceholder` | ChatGPT.Core/ViewModels/Chat/ChatViewModel.cs:245-258 | the placeholder once resolved: the result text and error flag, the settings format, no longer awaiting and sent |
| `Chat.UserSlot` | ChatGPT.Core/ViewModels/Chat/ChatViewModel.cs:192-200 | the next user message: empty text, unsent, removable, the settings format and the send action installed |
| `Chat.CycleKeepsNoneAwaiting` | ChatGPT.Core/ViewModels/Chat/ChatViewModel.cs:192-258 | at most one message awaits: from a transcript where none awaits, exactly the appended placeholder awaits while the call is outstanding, and each tail a send cycle can append (resolved placeholder, user slot, or both) leaves none awaiting |
| `Chat.SendKeepsNoneAwaiting` | ChatGPT.Core/ViewModels/Chat/ChatViewModel.cs:145-215 | a send cycle on a conversation in which no message awaits leaves no message of its transcript awaiting, whether validation fails, only a message is added, or the call completes or is cancelled |
| `Chat.ChatViewModel.constructor` | ChatGPT.Core/ViewModels/Chat/ChatViewModel.cs:26-30 | empty transcript, no settings, no current message, enabled, no cancellation source |
| `Chat.ChatViewModel.WithSettings` | ChatGPT.Core/ViewModels/Chat/ChatViewModel.cs:32-35 | like the parameterless constructor, with the given settings |
| `Chat.ChatViewModel.WithDefaults` | ChatGPT.Core/ViewModels/Chat/ChatViewModel.cs:37-58 | fresh settings from the arguments, defaulting to "You are a helpful assistant.", 0.7, 1, 0, 0, 2000, no key and "gpt-3.5-turbo" |
| `Chat.ChatViewModel.SetMessageActions` | ChatGPT.Core/ViewModels/Chat/ChatViewModel.cs:95-100 | installs the send action on the message and changes nothing else |
| `Chat.ChatViewModel.Directions` | ChatGPT.Core/ViewModels/Chat/ChatViewModel.cs:275 | the directions of the settings, or none when there are no settings |
| `Chat.ChatViewModel.CanSend` | ChatGPT.Core/ViewModels/Chat/ChatViewModel.cs:149-157 | a send cycle starts exactly when there are settings and either only a message is added or the sent message has a non-empty text |
| `Chat.ChatViewModel.UnsendLast` | ChatGPT.Core/ViewModels/Chat/ChatViewModel.cs:132-141 | the last message becomes unsent, and also non-removable when exactly two messages remain; every other message keeps its fields |
| `Chat.ChatViewModel.Remove` | ChatGPT.Core/ViewModels/Chat/ChatViewModel.cs:114-143 | an awaiting message requests cancellation of a live source; a non-removable message leaves every message unchanged; otherwise its first occurrence is removed, the new last message becomes unsent (and non-removable when two remain), and no other message changes |
| `Chat.ChatViewModel.CreateChatMessages` | ChatGPT.Core/ViewModels/Chat/ChatViewModel.cs:263-299 | the loop builds exactly the reference prompt of the transcript and the directions |
| `Chat.ChatViewModel.SendPrompt` | ChatGPT.Core/ViewModels/Chat/ChatViewModel.cs:336-380 | no result iff there are no settings; otherwise the request built from the settings and the mapped response |
| `Chat.ChatViewModel.AppendAwaitingPlaceholder` | ChatGPT.Core/ViewModels/Chat/ChatViewModel.cs:226-237 | appends a fresh assistant message "Sending..." in the text format: awaiting, unsent, removable, with the send action; it becomes current |
| `Chat.ChatViewModel.ResolvePlaceholder` | ChatGPT.Core/ViewModels/Chat/ChatViewModel.cs:245-258 | the placeholder takes the result's text and error flag ("Unknown error." and error for no result) and the settings' format, and becomes not awaiting and sent |
| `Chat.ChatViewModel.CreateResultMessage` | ChatGPT.Core/ViewModels/Chat/ChatViewModel.cs:217-261 | no settings: nothing happens; otherwise exactly one fresh resolved assistant message is appended and becomes current, and the mapped result and the request are returned |
| `Chat.ChatViewModel.AppendUserSlot` | ChatGPT.Core/ViewModels/Chat/ChatViewModel.cs:192-202 | appends a fresh empty, unsent, removable "user" message in the settings' format; it becomes current |
| `Chat.ChatViewModel.RequestResponse` | ChatGPT.Core/ViewModels/Chat/ChatViewModel.cs:168-188 | sends the prompt of the transcript as it was, appends the resolved assistant message, reports the cancel flag, and leaves no cancellation source |
| `Chat.ChatViewModel.SendAsync` | ChatGPT.Core/ViewModels/Chat/ChatViewModel.cs:145-215 | failed validation changes nothing and returns true; otherwise the sent message becomes sent and removable, and entries are only appended: the resolved assistant message unless only adding, then the user message unless cancelled (+2, +1 or +1). The controller ends enabled. Past validation, the result is true only for a cancelled cycle whose response was an error |
| `Chat.ChatViewModel.AddMessage` | ChatGPT.Core/ViewModels/Chat/ChatViewModel.cs:382-410 | appends one fresh message with the given role and text and every other field at its default |
| `Chat.ChatViewModel.AddSystemMessage` | ChatGPT.Core/ViewModels/Chat/ChatViewModel.cs:382-390 | appends a fresh "system" message with the text; returns the conversation |
| `Chat.ChatViewModel.AddUserMessage` | ChatGPT.Core/ViewModels/Chat/ChatViewModel.cs:392-400 | appends a fresh "user" message with the text; returns the conversation |
| `Chat.ChatViewModel.AddAssistantMessage` | ChatGPT.Core/ViewModels/Chat/ChatViewModel.cs:402-410 | appends a fresh "assistant" message with the text; returns the conversation |
| `Chat.ChatViewModel.CopyMessages` | ChatGPT.Core/ViewModels/Chat/ChatViewModel.cs:412-431 | one fresh, pairwise distinct copy with equal fields per message, in order; the current copy is the one standing where the current message last occurs, or null |
| `Chat.ChatViewModel.Copy` | ChatGPT.Core/ViewModels/Chat/ChatViewModel.cs:433-442 | a fresh conversation with the same name, copied settings (or none) and copied messages; its current message points into the copies; the original is not modified |
| `MainView.Settings.constructor` | ChatGPT.UI/ViewModels/MainViewModel.cs:18-22 | the settings hold the given temperature and max tokens |
| `MainView.Message.constructor` | ChatGPT.UI/ViewModels/MainViewModel.cs:63 | a new message with null prompt and text, both flags false, and no link |
| `MainView.ResultText` | ChatGPT.UI/ViewModels/MainViewModel.cs:78-93 | no value (Send throws) iff the call threw, the response is null or the first choice's text is null; no choice gives a null text; otherwise exactly the trimmed first-choice text |
| `MainView.ResultTextIsTrimmedChoice` | ChatGPT.UI/ViewModels/MainViewModel.cs:93 | a first choice whose text is white space, a trimmed middle and white space gives exactly the middle as the result text |
| `MainView.MainViewModel.constructor` | ChatGPT.UI/ViewModels/MainViewModel.cs:16-35 | exactly one message: the welcome text, empty prompt, unsent; it is current; the controller is enabled; settings are 0.6 and 100 |
| `MainView.MainViewModel.Sends` | ChatGPT.UI/ViewModels/MainViewModel.cs:39-47 | Send gets past its guards exactly when there is a transcript and the sent message has a non-empty prompt |
| `MainView.MainViewModel.Temperature` | ChatGPT.UI/ViewModels/MainViewModel.cs:76 | the settings temperature, or 0.6 when there are no settings |
| `MainView.MainViewModel.MaxTokens` | ChatGPT.UI/ViewModels/MainViewModel.cs:77 | the settings maximum token count, or 100 when there are no settings |
| `MainView.MainViewModel.BeginSend` | ChatGPT.UI/ViewModels/MainViewModel.cs:49-74 | disables; marks the sent message sent; uses it as the prompt message when it is linked, or else appends a fresh one; moves the prompt text in, clears the prompt, marks it sent and awaiting, makes it current |
| `MainView.MainViewModel.AttachResult` | ChatGPT.UI/ViewModels/MainViewModel.cs:80-91 | a linked result message is reused and marked sent; otherwise a fresh unsent message is appended |
| `MainView.MainViewModel.FinishSend` | ChatGPT.UI/ViewModels/MainViewModel.cs:93-101 | the result message gets the text and an empty prompt and becomes current; the prompt message stops awaiting and links to it; the controller is enabled |
| `MainView.MainViewModel.Send` | ChatGPT.UI/ViewModels/MainViewModel.cs:37-102 | no transcript or no prompt: nothing changes. The request uses the prompt and the settings' temperature and max tokens (0.6 and 100 without settings). A fresh send adds the prompt message and, unless the call itself throws, a result message; a re-send adds none and reuses the linked result message, marked sent unless the call threw. When the call or reading its response throws, the controller stays disabled and the prompt message stays awaiting and current; otherwise the result message is current with the trimmed text and the controller is enabled |

## Left out

- **Clipboard copy.** `CopyAsync` (`ChatGPT.Core/ViewModels/Chat/ChatViewModel.cs:102-112`) goes through the service locator to the clipboard. It is I/O.
- **Copy and remove delegates.** `SetCopyAction`, `SetRemoveAction`, `CopyAction` and `RemoveAction` only store or invoke a delegate. Only the send delegate is modelled, as a flag.
- **The real service calls.** `chat.GetResponseDataAsync` and `ChatService.GetResponseDataAsync` are network I/O. Each is replaced by an outcome parameter.
- **Interleaving during the await.** The send cycle is modelled as one atomic step. A `Remove` during the await appears only through `cancelRequested`. The model does not cover the placeholder being removed from the list during the await, or a second send during the await.
- **Exception handlers in the send cycle.** The handlers in `SendAsync` (`ChatGPT.Core/ViewModels/Chat/ChatViewModel.cs:179-182, 207-210`) catch nothing in the model, because no step of the modelled cycle throws.
- **The API-key environment swap.** It is modelled only as the function `ApiKeyAfterCall` on the prior value. Process-global state belongs to the runtime.
- **UI plumbing.** Property-change notification, JSON attributes and command objects are UI plumbing.
- **Source files outside the model.**
  - `ChatGPT.UI/App.axaml.cs` (dependency injection, plugins, layout persistence, themes) is not part of this model.
  - `ChatGPT.UI/Views/MainWindow.axaml.cs` (key bindings) is not part of this model.
  - `ChatGPT.UI.Browser/Services/Interop.cs` (a JavaScript forwarder) is not part of this model.
- **Classes whose source is not part of this model.** `ChatSettingsViewModel`, `ChatMessageViewModel.Copy`, `ChatSettingsViewModel.Copy`, `SettingsViewModel` and `MessageViewModel` are not part of this model. The model assumes:
  - the copies return fresh objects with equal fields, the installed send action included;
  - a new `MessageViewModel` has null strings, false flags and no link;
  - in `WithDefaults`, the settings' format is null.
- **`Chat.ChatViewModel.SendAsync`: the cancellation flag is an input.** It stands for a request observed when the call returns. The return value on cancellation therefore depends on the supplied outcome; a cancelled call that produced no response returns `true`.
