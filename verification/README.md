# Clipboard assistant: run orchestration model

A Dafny model of the client side of an assistant that may ask the local
machine to copy to or paste from the clipboard. The client creates a run on
a conversation thread and polls it while it is `queued` or `in_progress`.
If the run then `requires_action` and its first pending tool call is a
`function` call, the client runs that one tool, submits the result as a
batch of one output, and polls again. Finally it shows the thread's messages
sorted by creation time.

Modules:

- `Wrappers` (wrappers.dfy): `Option`.
- `ClipboardTool` (clipboard_tool.dfy): the `clipboard_operations` handler.
  The clipboard is an abstract cell that holds one string.
- `RunPoller` (run_poller.dfy): `executeAssistantRun`. The remote service is
  an oracle, a sequence `obs` of the run values it answers with:
  - `obs[0]` answers the create request;
  - each retrieve answers with the next element;
  - `submitToolOutputs` answers with the element after the run that asked
    for the tool.

  `Execute` returns one of three ends: the run it returns, the exception the
  JavaScript code raises, or `Unfinished` when the observations run out
  while the code would still poll. It also returns the tool calls handed to
  a handler, the submissions sent and the final clipboard.
- `MessageDisplay` (message_display.dfy): the sort by `created_at` and the
  `slice(-2)` selection.
- `Session` (session.dfy): `main`'s two turns. Between the turns it makes a
  direct clipboard write.

There is no structured unknown-tool result: for an unregistered name,
`tools[functionName]` is `undefined` and calling it throws
(src/index.ts:64). The model gives `Threw(NotAFunction(name))`, with nothing
submitted. In the same way, a `requires_action` run whose `tool_calls` list
is empty makes reading `tool_calls[0].type` throw (src/index.ts:57). The
model gives `Threw(MissingToolCall)` for it.

Printing a message reads the text of its first content part
(src/index.ts:152, 176). A message with no content, or whose first part is
not text, makes that throw, and the top-level `catch` ends the flow. The
model records this as `Stopped(..., PrintThrew(turn))`. Only the messages a
display prints matter: after the second run, that is the latest two.

## Model

| member | source | states |
|---|---|---|
| ClipboardTool.Handle | src/index.ts:87-99 | success exactly for a copy with truthy text or a paste; a paste reports the current clipboard; only a truthy copy changes the clipboard, to its text; every other input gets the fixed "Invalid operation or missing text for copy" record |
| ClipboardTool.CopyThenPaste | src/index.ts:88-93 | on the idealised clipboard, a paste after a successful copy of non-empty text returns that text |
| ClipboardTool.PasteIdempotent | src/index.ts:91-93 | paste does not change the clipboard, so a second paste returns the same record |
| ClipboardTool.CopyNeedsText | src/index.ts:88-98 | a copy with missing or empty text is rejected and leaves the clipboard alone |
| RunPoller.Poll | src/index.ts:50-53 | the polling loop stops on the first observation that is not queued/in_progress, or runs out only if every remaining one is |
| RunPoller.PollFindsFirst | src/index.ts:50-53 | the loop stops exactly at the first non-polling observation |
| RunPoller.PollStopsIff | src/index.ts:75-78 | the loop stops if and only if some later observation leaves queued/in_progress |
| RunPoller.Execute | src/index.ts:41-82 | a returned run is never queued/in_progress; at most one call is dispatched; there is one submission per dispatch; the submitted batch is exactly one output with the call's id and the handler's result; a drive that throws dispatches nothing; without a dispatch the clipboard is unchanged; if the first loop never sees a run leave queued/in_progress, nothing is dispatched, thrown or submitted and the drive is `Unfinished` |
| RunPoller.DispatchIff | src/index.ts:55-64 | a handler runs if and only if the first stopping run requires action, its first call is of type "function" and its name is registered; the call dispatched is that first call, and the submission targets that run |
| RunPoller.MissingCallThrows | src/index.ts:55-57 | a requires_action run with an empty list of pending calls throws, with nothing dispatched, submitted or written to the clipboard |
| RunPoller.UnregisteredToolThrows | src/index.ts:59-64 | for any registry, a first function call whose name is not registered throws `NotAFunction(name)` before anything is submitted or the clipboard changes |
| RunPoller.NoDispatchReturnsSettled | src/index.ts:55-81 | a terminal status, or a request whose first call is not a function call, is returned unchanged, with nothing dispatched or submitted |
| RunPoller.SecondStopReturned | src/index.ts:75-81 | after the single submission, the run the second loop stops on is returned as it is, even a second requires_action |
| RunPoller.SecondLoopHangs | src/index.ts:75-78 | after a dispatched request, if every later observation is still queued/in_progress, the second loop never ends and nothing is returned (`Unfinished`) |
| RunPoller.Finishes | src/index.ts:50-78 | if the service leaves queued/in_progress once, and again after a dispatched request, the drive returns or throws within the observations |
| RunPoller.OnlyFirstCallAnswered | src/index.ts:65-73 | pending calls after the first are never answered: no submitted output carries their id |
| MessageDisplay.Sort | src/index.ts:147-148 | the sorted list is chronological and a permutation of the listing |
| MessageDisplay.TiesKeepListingOrder | src/index.ts:147-148 | two messages with the same creation time stay in the order they were listed |
| MessageDisplay.SortIsStable | src/index.ts:147-148 | for every creation time, the messages created then come out of the sort in the order they were listed, for listings of any length |
| MessageDisplay.LastTwo | src/index.ts:172 | slice(-2) keeps min(2, n) elements, and they are the suffix |
| MessageDisplay.FirstDisplay | src/index.ts:145-149 | the first display shows every listed message, in creation order |
| MessageDisplay.SecondDisplay | src/index.ts:168-173 | the second display shows min(2, n) listed messages in creation order; every listed message left out is no later than each one shown |
| MessageDisplay.ChronologicalUnique | src/index.ts:147-148 | with distinct creation times, two chronological lists holding the same messages are equal |
| MessageDisplay.DisplayIgnoresListingOrder | src/index.ts:145-172 | with distinct creation times, both displays are independent of the order the service lists the messages in |
| Session.Flow | src/index.ts:143-184 | the flow shows both displays exactly when the first run returns, every first-listing message is printable, the second run returns and both latest messages are printable; otherwise it stops at the first of, in order, the first run throwing or hanging, the first display throwing, the second run throwing or hanging, the second display throwing, and reports that turn and kind (a throw with its fault); when shown, it reports the clipboard after each run, all first-listing messages in creation order, and the two latest of the second listing in creation order |
| Session.Main | src/index.ts:84-184 | the first run starts from the given clipboard and the second from the text the flow copied between the turns (line 158); the reported outcomes are exactly those two drives; both displays are shown exactly when both drives return, every first-listing message is printable and both latest second-listing messages are printable; when shown, the displays are all messages in creation order, then the latest two |
| Session.SecondPasteSeesOutOfBandText | src/index.ts:156-165 | a paste dispatched in the second turn reports the text the flow copied itself, not what the first turn left, and leaves it in place |
| Session.CopyScenario | src/index.ts:41-90 | queued, in_progress, requires_action with one copy call, then completed: one dispatch, one output tagged "call_1" with `{success: true}`, the completed run returned, and the clipboard holds the text |

## Left out

- Network calls (`runs.create`, `runs.retrieve`, `submitToolOutputs`, `assistants.create`, `threads.create`, `messages.create`, `messages.list`): replaced by the `obs` sequences and the message listings passed as parameters. A transport error thrown by them is not modelled.
- `sleep` between polls: timing only, with no effect on the logic.
- `JSON.parse` of tool arguments and `JSON.stringify` of results: arguments are an already structured `ClipArgs`. A submitted output carries the result record instead of its JSON text. Arguments that fail to parse, whose fields are not strings, or that are not a JSON object are not modelled. For example, `null` makes the handler throw when it reads `args.operation`.
- `tools[functionName]` also finds properties inherited from `Object.prototype` (such as `toString`). The model treats the registry as a plain map, so only registered names are found.
- `src/clipboard.ts`: its platform switch and shell pipelines are not modelled. `echo` appends a newline and the text is not escaped, so a real copy followed by a paste is not an exact round trip. The model uses an idealised cell.
- ClipboardTool.CopyThenPaste: holds of the idealised cell only, not of the operating-system clipboard.
- MessageDisplay.Sort: the comparator never returns 0. That leaves the order of messages with equal `created_at` to the JavaScript engine. The model sorts by insertion and keeps such messages in listing order (`MessageDisplay.SortIsStable`). Its contract fixes only chronological order and the permutation.
- Console output formatting, the assistant's instructions and model name, the tool's JSON schema, the API key setup, and the logging done by the top-level `catch`: `Session.Flow` only records why the flow stopped. Messages printed before a display throws are not recorded.
- A run that never leaves queued/in_progress polls forever in the source. In the model it is `Unfinished` within the given observations.
