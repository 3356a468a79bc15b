# LungVision client: the `App` state machine

This project models the interaction core of the LungVision single-page client
(`src/App.js`): the four pieces of component state, the three event handlers that
change them, and the screen derived from them. A user picks or drops a chest X-ray,
submits it to a remote classifier, and sees the label ("NORMAL" or anything else)
as a coloured banner and as a new entry in a session history.

The model is functional. `AppState.State` holds `selectedImage`, `classification`,
`isLoading` and `history`. Each handler is a pure function from state to state.
The asynchronous submit handler is split at its single `await` into
`Handlers.SubmitStart` and `Handlers.Settle`. The settle step takes the image captured
when the submit started, as the JavaScript closure does. `View.Render` computes what is
on screen. `Trace` runs the component over a sequence of events. `Session` adds the set
of posted-but-unsettled requests and proves invariants of every reachable session.

Modules, one per concern:

- `state.dfy` (`AppState`): images, labels, history records, the state, the initial state.
- `handlers.dfy` (`Handlers`): file picker, drop zone, submit start, settle.
- `view.dfy` (`View`): preview, banner, button, loader and history panel.
- `trace.dfy` (`Trace`): event sequences and what they do to the history.
- `session.dfy` (`Session`): in-flight requests, reachable-state invariants, scenarios.

### Behaviour worth knowing

- A picker or drop event with no file is ignored. No error is raised.
- Submitting with no image only alerts the user. The state is untouched.
- The submit button is disabled while loading, so a click then posts nothing.
  Choosing a file clears `isLoading`, which re-enables the button. A second request
  can therefore be posted while the first is pending (`Session.ReselectDuringFlight`).
- A new selection clears the result only until a request started earlier settles.
  That request's label is then shown under the newly chosen file
  (`Session.ReselectDuringFlight`).
- A response without a `classification` field takes the success path. It appends a
  record with an empty label and clears the result
  (`Handlers.MissingLabelTakesSuccessPath`). Only a rejected request fails, or a JSON
  `null` body, whose field access throws inside the `try`.
- A failed request keeps the earlier `classification`. When loading ends, the earlier
  banner reappears (`View.FailureKeepsEarlierResult`).

## Model

| member | source | states |
|---|---|---|
| Handlers.FirstFile | src/App.js:11 | A handler acts on a file exactly when the event's file list exists and is non-empty, and that file is the first in the list |
| Handlers.HandleImageChange | src/App.js:10-16 | Picking a file selects it, clears the result and the loading flag, and keeps the history; an event with no file changes nothing |
| Handlers.HandleDrop | src/App.js:22-29 | Dropping a file has the same effect on the state as picking it; a drop with no file changes nothing |
| Handlers.PickerAndDropAgree | src/App.js:10-29 | The picker and the drop zone yield identical states for every state and every event payload |
| Handlers.SubmitStart | src/App.js:31-38 | Without a selection, submit changes no state and posts nothing; with one, it sets loading and posts exactly the selected image as the single form field "file" |
| Handlers.LabelOf | src/App.js:45-50 | The stored label is the response's `classification` field, and "" when the field is absent |
| Handlers.SettleOk | src/App.js:45-57 | On success the result becomes the returned label, the history gains exactly one record (captured image, label) at its end with all earlier entries unchanged and in order, and loading ends |
| Handlers.SettleErr | src/App.js:53-58 | On failure the history and the earlier result are unchanged, the selection is kept, and loading ends |
| Handlers.Settle | src/App.js:40-58 | Any resolved response with a body object takes the success path; a rejection or a null body leaves history and result unchanged; loading ends either way |
| Handlers.MissingLabelTakesSuccessPath | src/App.js:43-52 | A response without a label still appends a record (with an empty label) and leaves no result |
| Handlers.SubmitThenSucceed | src/App.js:31-58 | A submit followed by success records exactly the image that was posted, with the returned label, and changes nothing else but the result |
| Handlers.SubmitThenFail | src/App.js:31-58 | A submit followed by failure returns to the pre-submit state apart from loading being off |
| View.HistoryItems | src/App.js:171-198 | The history panel has one item per record, in history order, each built from its own record |
| View.Render | src/App.js:118-198 | Built from the view predicates `ShowPreview`, `ShowBanner` (lines 138, 145), `ButtonDisabled` (line 133) and `IsNormal` (lines 153-164, 176-192): button disabled and loader shown iff loading; button label "Analyzing..." while loading and "Upload and Classify" otherwise; preview iff an image is selected and not loading; banner iff additionally the result is non-empty; banner and every history item use the normal palette and message exactly when the label is "NORMAL" |
| View.HistoryItemsAppend | src/App.js:171-198 | Appending a record to the history appends exactly its item to the panel, leaving earlier items in place |
| View.SelectionClearsResult | src/App.js:10-16 | After choosing a file the screen shows its preview, no banner, an enabled button and the same history panel |
| View.SubmitShowsBusy | src/App.js:130-138 | While a submission loads, the button is disabled with the busy label, the loader shows, and neither preview nor banner appears |
| View.SuccessShowsResult | src/App.js:138-192 | After a success with a non-empty label the banner shows that label's styling, and the new last history item has the same palette |
| View.FailureKeepsEarlierResult | src/App.js:53-58 | After a failure the history panel is unchanged and the banner shows the earlier result whenever one exists and an image is selected |
| Trace.Step | src/App.js:113-131 | The wiring of drop zone, file input and button: only a selection changes the selected image, only a submit raises loading, only a selection or a successful settle changes the result, only a successful settle writes history |
| Trace.StepHistory | src/App.js:46-52 | A successful settle is the only event that writes history, and it appends one record; every other event leaves history unchanged |
| Trace.RunHistory | src/App.js:46-52 | After any trace, history is the old history followed by one record per successful settle, in completion order |
| Trace.HistoryIsAppendOnly | src/App.js:8 | No trace removes or reorders history entries: the old history is a prefix of the new |
| Trace.FailuresKeepHistory | src/App.js:53-58 | A trace with no successful settle leaves the history unchanged |
| Trace.EndsWithSelection | src/App.js:10-29 | Whatever came before, a trace ending in a file selection leaves that file selected, no result, loading off, no banner and the history as it was |
| Session.Step | src/App.js:31-135 | Picker and drop apply their handlers; a submit while the button is disabled or with nothing selected changes nothing; an enabled submit with a selection sets loading and posts that image, which becomes pending; a response settles exactly its own pending request with that request's captured image and removes only it; a response for no pending request changes nothing |
| Session.RunLowers | src/App.js:113-135 | A session trace drives the component exactly as the sequence of component events it amounts to |
| Session.SessionHistory | src/App.js:46-52 | In every session trace the history is the old history followed by one record per successful response, in arrival order, so no entry is ever removed or reordered |
| Session.StepInv | src/App.js:5-58 | Every event preserves the session invariant: loading implies a selection and a pending request, no selection implies nothing posted, no history and no result, and every pending or recorded image was posted |
| Session.RunInv | src/App.js:5-58 | The session invariant survives any trace |
| Session.Reachable | src/App.js:5-58 | In every session reachable from mount, loading implies a selection and a pending request, a session with no selection has posted nothing and has no history and no result, and every history image was posted |
| Session.SubmitWithoutImage | src/App.js:32-35 | Submit with nothing selected leaves the whole session, including the request log, unchanged |
| Session.NormalScenario | src/App.js:31-164 | Choosing a file, submitting it and receiving "NORMAL" yields a one-record history and the normal-styled banner |
| Session.ReselectDuringFlight | src/App.js:22-135 | While loading, the disabled button posts nothing; choosing a new file mid-flight re-enables it, allows a second request, and a late success then shows its label under the new file while recording the old one |

## Left out

- The HTTP POST, its hard-coded URL, the multipart encoding and status handling are network I/O. A response is modelled only as a body (null, or an object with or without a label) or a rejection.
- A `classification` value that is not a string (a number, an object) is not modelled. An absent field is modelled as "", which every reader of the state treats like JavaScript `undefined`.
- `URL.createObjectURL`, the preview image and object-URL lifetime are not modelled. An image and the handle derived from it are the same opaque `Image`.
- `alert`, `console.error`, `preventDefault` and `handleDragOver` are left out because they have no effect on the state.
- Inline styles, colours, layout and the spinner keyframes are left out. Styling is reduced to the `Palette` and `Message` choices, and the emoji banner texts to the two `Message` values.
- React rendering, hook scheduling and batching are left out. Events are applied one at a time, and each settle sees the state current at that moment, as the functional history update does.
- `Trace` settle events name their image freely and need no earlier submit, so its traces include ones the component cannot produce. Its history lemmas hold for all of them; `Session` produces only reachable traces and carries those lemmas over through `Session.RunLowers`.
- Responses that belong to no posted request are not modelled: the session ignores them, since the component cannot receive one.
