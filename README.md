# Pergunte ao Capitão — submission and progress components in Dafny

This project models the client-side core of the "Pergunte ao Capitão" web
app. A visitor sends a video or audio question, or types a test question,
and follows the server's work until an answer comes back. The model covers
five React components.

- **ProcessingProgress** (`processing_progress.dfy`) follows one server job
  over a push stream. It keeps the latest session snapshot and reports
  completion, failure or cancellation to its caller. It is modelled as a
  class `Tracker`:
  - every stream it opened is an open/closed flag in `streams`;
  - message, transport-error, reconnect-timer, unmount and cancel events are
    methods;
  - the message handler is specified by a pure function `Dispatch` of the
    parsed payload.

  The pure parts are functions with their own partners: step status and
  icon, and the remaining-time text, which has a reader `ReadTime` as its
  inverse.
- **SubmissionFormUpdated** (`submission_form_updated.dfy`) is the
  controller with consent, test mode and live progress. The class `Form`
  has a `Valid` invariant: a completed controller holds a result, and a
  failed one holds a message.
- **SubmissionFormSimple** (`submission_form_simple.dfy`) is the form with
  a loading flag and a placeholder answer that a timer delivers. The class
  `Form` keeps the invariant that the loading screen is never shown unless
  a call or a timer is pending that will end it.
- **SubmissionForm** (`submission_form.dfy`) is the first form: a file, a
  consent box, and a submit that only acknowledges and clears.
- **LoadingStates** (`loading_states.dfy`) is the upload progress panel:
  - each stage's icon, title and description, each with an inverse that
    reads the stage back;
  - four indicators that light up cumulatively.

`common.dfy` holds what the components share:
- optional values and JavaScript truthiness of strings;
- the records the API calls resolve to;
- `trim`, proved to reject exactly the all-white-space questions;
- number-to-text, proved to read back.

`scenarios.dfy` drives the classes through whole flows using only their
contracts.

How state changes are modelled:
- Every `await` splits a handler in two. `Submit` runs up to the network
  call, and `UploadSettles` or `TestSettles` runs after it. A counter of
  calls in flight stands for each pending promise.
- A `setTimeout` callback is a counter plus an explicit `...Fires` method.
- The stream transport is abstract. Stream events can only be delivered
  while the effect's stream (index 0) is open, because a closed
  `EventSource` dispatches nothing.

Behaviour the model keeps as the code has it:
- **A leaked replacement stream.** After a transport error that closed the
  stream, the reconnect timer opens a replacement stream. That stream has
  no handlers, and the effect's cleanup closes only the original stream,
  so the replacement stays open after unmount (`Scenarios.ReconnectFlow`).
- **A session id that is never there.** The upload handler reads a
  top-level `session_id` from the upload reply. `uploadQuestion` in
  src/lib/api.ts puts the server's body under `data` and never sets that
  field. With such a reply, the controller stays "processing" with no
  session: the form shows again with its submit button disabled
  (`Scenarios.UploadReplyWithoutSessionFlow`).
- **Both callbacks from one snapshot.** A snapshot that is completed with a
  result and also carries an error fires both callbacks, completion first
  (`Scenarios.BothCallbacksFlow`).

## Model

| member | source | states |
|---|---|---|
| Common.ErrorText | src/components/SubmissionFormUpdated.tsx:151 | The message of a failed call is the response's error when it is truthy, and the fixed fallback otherwise. It is never empty when the fallback is not. |
| Common.TypePrefix | src/components/SubmissionForm.tsx:19 | A MIME type starts with a five-letter kind and "/" exactly when its first five characters are that kind and the sixth is "/". |
| Common.IsPlayableMedia | src/components/SubmissionForm.tsx:19 | A file is accepted on drop iff its MIME type has "video" or "audio" as its first five characters followed by "/". The same test is at src/components/SubmissionFormSimple.tsx:48. |
| Common.SkipLeading | src/components/SubmissionFormUpdated.tsx:162 | The position where `trim` starts keeping: everything before it, from the start position, is white space, and the character at it is not. |
| Common.SkipTrailing | src/components/SubmissionFormUpdated.tsx:162 | The position where `trim` stops keeping: everything from it to the end position is white space, and the character before it is not, unless nothing is kept. |
| Common.Trim | src/components/SubmissionFormUpdated.tsx:162 | `s.trim()` is a contiguous part of `s`. Everything before it and after it is white space, and it neither starts nor ends with white space. |
| Common.BlankIffAllWhitespace | src/components/SubmissionFormUpdated.tsx:162 | Trimming leaves the empty string exactly when every character is white space. |
| Common.IsBlank | src/components/SubmissionFormUpdated.tsx:162 | `!question.trim()` holds exactly when every character of the question is white space. The same guard is at lines 387 and src/components/SubmissionFormSimple.tsx:104. |
| Common.Digits | src/components/ProcessingProgress.tsx:116 | The decimal text of a natural number is non-empty and all digits, with no leading zero. |
| Common.IntText | src/components/ProcessingProgress.tsx:116 | The text of an integer starts with '-' exactly when it is negative. |
| Common.DigitsRoundTrip | src/components/ProcessingProgress.tsx:118-120 | Reading the decimal text of a natural number back gives that number. |
| Common.IntTextRoundTrip | src/components/ProcessingProgress.tsx:116 | Reading the text of any integer, negative or not, back gives that integer. |
| ProcessingProgress.Dispatch | src/components/ProcessingProgress.tsx:60-82 | Only a parsed status/update payload has an effect. It replaces the snapshot wholesale. It closes the stream exactly when it fires a callback. It fires completion iff the snapshot is completed with that result, and failure iff it has a truthy error with that text. Completion comes before failure, Cancelled is never fired, and after any callback the Cancel button is hidden. |
| ProcessingProgress.ShowCancel | src/components/ProcessingProgress.tsx:167 | While the Cancel button is shown for a snapshot, that snapshot fires no callback. |
| ProcessingProgress.SnapshotNotices | src/components/ProcessingProgress.tsx:67-77 | The callbacks one snapshot fires are at most two: a completion for a completed snapshot with a result, then a failure for a truthy error. |
| ProcessingProgress.SnapshotCounts | src/components/ProcessingProgress.tsx:67-77 | One snapshot fires at most one completion, at most one failure, and no cancellation. |
| ProcessingProgress.CallbacksFireOnce | src/components/ProcessingProgress.tsx:60-82 | Appending one snapshot's callbacks to a history with no completion and no failure leaves at most one of each. |
| ProcessingProgress.CancelAppended | src/components/ProcessingProgress.tsx:106-112 | Reporting a cancellation after a history with nothing but cancellations after its first cancellation keeps that property. |
| ProcessingProgress.GetStepStatus | src/components/ProcessingProgress.tsx:136-141 | Error iff the step's error is truthy. Otherwise completed iff completed, then processing iff it is the current step, otherwise pending. |
| ProcessingProgress.GetStepIcon | src/components/ProcessingProgress.tsx:123-134 | The icon is the one that belongs to GetStepStatus's status for the same step (alert, check, spinner, clock). |
| ProcessingProgress.StepStatuses | src/components/ProcessingProgress.tsx:200-202 | There is one status per step. Each step is in error iff its own error is truthy. Otherwise it is completed iff that step is completed, processing iff its id is the session's current step, and pending otherwise. With unique ids at most one step is processing. |
| ProcessingProgress.FormatTime | src/components/ProcessingProgress.tsx:114-121 | The remaining-time text ends in "s", and it has a minutes part ("m") exactly when the time is at least 60 seconds. |
| ProcessingProgress.ReadShortTime | src/components/ProcessingProgress.tsx:115-117 | A time under a minute, written "Ns", reads back as N. This covers negative N too. |
| ProcessingProgress.ReadMinutesOf | src/components/ProcessingProgress.tsx:118-120 | "Mm S" with M at least 1 and S below 60 reads back as M*60+S. |
| ProcessingProgress.ReadLongTime | src/components/ProcessingProgress.tsx:118-120 | "Mm Ss" with M at least 1 and S below 60 reads back as M*60+S seconds. |
| ProcessingProgress.FormatTimeRoundTrip | src/components/ProcessingProgress.tsx:114-121 | The remaining-time text of any whole number of seconds reads back as that number. Minutes*60 plus seconds is the input, and the seconds part is below 60. |
| ProcessingProgress.EstimateText | src/components/ProcessingProgress.tsx:190-194 | The estimate line is shown exactly when the estimate is present and non-zero, and its text reads back as the estimate. An estimate of 0 renders a stray "0" instead. No estimate renders nothing. |
| ProcessingProgress.Tracker.constructor | src/components/ProcessingProgress.tsx:45-53 | Mounting with a non-empty session id opens one stream and holds its handle. An empty id opens nothing. There is no snapshot, no connection and no callback yet. |
| ProcessingProgress.Tracker.OnOpen | src/components/ProcessingProgress.tsx:55-58 | Opening the stream marks the tracker connected. |
| ProcessingProgress.Tracker.OnMessage | src/components/ProcessingProgress.tsx:60-82 | An ignored payload changes nothing. Otherwise the snapshot, the callbacks fired and the stream's state are exactly as Dispatch says. Completion and failure each stay reported at most once, and nothing but a cancellation follows a cancellation (Valid). |
| ProcessingProgress.Tracker.ApplySnapshot | src/components/ProcessingProgress.tsx:64-77 | The snapshot is stored, its callbacks are appended in order, and the stream closes iff a callback fired. Valid is kept. |
| ProcessingProgress.Tracker.OnTransportError | src/components/ProcessingProgress.tsx:84-96 | The tracker is marked disconnected and one reconnect check is scheduled. The stream is closed only if the browser gave it up. |
| ProcessingProgress.Tracker.ReconnectTimerFires | src/components/ProcessingProgress.tsx:89-95 | If the effect's stream is closed, a new open stream without handlers is added, and its handle is stored while mounted. Otherwise nothing changes. |
| ProcessingProgress.Tracker.Unmount | src/components/ProcessingProgress.tsx:99-103 | The effect's stream is closed and the handle and connection flag are cleared. Other streams are left as they are, and nothing happens for an empty session id. |
| ProcessingProgress.Tracker.Cancel | src/components/ProcessingProgress.tsx:106-112 | It can only be pressed while the button is shown (line 167). The held stream, if any, is closed and forgotten, the caller is told of the cancellation, and no message can arrive afterwards. |
| ProcessingProgress.Tracker.CancelVisible | src/components/ProcessingProgress.tsx:167 | The Cancel button is shown only while a snapshot is held, and that snapshot has fired no callback. |
| SubmissionFormUpdated.Classify | src/components/SubmissionFormUpdated.tsx:125-165 | A submit is refused iff consent is missing, or the test question is blank in test mode, or there is no file otherwise. An upload starts iff consent and a file are present outside test mode. A test call starts iff consent and a non-blank question are present in test mode. |
| SubmissionFormUpdated.SubmitDisabled | src/components/SubmissionFormUpdated.tsx:387 | The button is disabled exactly when a click would be refused, or while processing. |
| SubmissionFormUpdated.ViewOf | src/components/SubmissionFormUpdated.tsx:222-242 | Progress shows iff processing with a truthy session id. The result shows iff completed with a result. The form shows otherwise. |
| SubmissionFormUpdated.Form.View | src/components/SubmissionFormUpdated.tsx:222-242 | A valid controller that has completed always shows its result. |
| SubmissionFormUpdated.Form.constructor | src/components/SubmissionFormUpdated.tsx:24-34 | The initial state is idle, with no file, no consent, no session, no result, no error and not in test mode. |
| SubmissionFormUpdated.Form.PickFile | src/components/SubmissionFormUpdated.tsx:40-55 | A picked or dropped file replaces the current one without a MIME check. No file leaves it as it was. |
| SubmissionFormUpdated.Form.SetConsent | src/components/SubmissionFormUpdated.tsx:370 | The consent box sets the consent. |
| SubmissionFormUpdated.Form.SetTestMode | src/components/SubmissionFormUpdated.tsx:251-259 | The mode buttons set test mode off or on. |
| SubmissionFormUpdated.Form.SetTestQuestion | src/components/SubmissionFormUpdated.tsx:290 | The text area sets the test question. |
| SubmissionFormUpdated.Form.Submit | src/components/SubmissionFormUpdated.tsx:125-170 | The outcome is Classify of the state before the click. A refused click changes nothing. Otherwise the form is processing with no error, one more call of the right kind is in flight, and the count of the other kind is unchanged. Earlier calls may still be pending, since a reset lets the form submit again before they settle. |
| SubmissionFormUpdated.Form.UploadSettles | src/components/SubmissionFormUpdated.tsx:145-158 | On success the reply's session id is stored. On failure the reply's error text, or "Erro no upload", is stored and the state becomes error. Valid is kept. |
| SubmissionFormUpdated.Form.TestSettles | src/components/SubmissionFormUpdated.tsx:171-185 | On success the whole reply becomes the result and the state becomes completed. On failure the error text, or "Erro na geração de resposta", is stored and the state becomes error. |
| SubmissionFormUpdated.Form.ProcessingComplete | src/components/SubmissionFormUpdated.tsx:188-193 | The session's result is stored, the state becomes completed and the session id is dropped. |
| SubmissionFormUpdated.Form.ProcessingError | src/components/SubmissionFormUpdated.tsx:195-200 | The message is stored, the state becomes error and the session id is dropped. |
| SubmissionFormUpdated.Form.ProcessingCancel | src/components/SubmissionFormUpdated.tsx:202-207 | Back to idle, with no session and no error. |
| SubmissionFormUpdated.Form.Reset | src/components/SubmissionFormUpdated.tsx:209-220 | Every field returns to its initial value except the mode, and calls in flight are not cancelled. |
| SubmissionFormSimple.Classify | src/components/SubmissionFormSimple.tsx:54-107 | A submit is refused iff the question is blank in test mode, or there is no file otherwise. It starts the matching call otherwise. |
| SubmissionFormSimple.SubmitDisabled | src/components/SubmissionFormSimple.tsx:375 | Each mode's button is disabled exactly when its click would be refused, or while loading. The test-mode button is at line 288. |
| SubmissionFormSimple.ViewOf | src/components/SubmissionFormSimple.tsx:156-236 | An answer is shown iff there is one. The loading screen shows iff there is no answer and loading is on. The form shows otherwise. |
| SubmissionFormSimple.Form.constructor | src/components/SubmissionFormSimple.tsx:7-14 | There is no file, no answer and no error, loading is off, test mode is off, and nothing is pending. |
| SubmissionFormSimple.Form.Drop | src/components/SubmissionFormSimple.tsx:44-52 | A dropped file is kept only if its MIME type starts with video/ or audio/. |
| SubmissionFormSimple.Form.ChooseFile | src/components/SubmissionFormSimple.tsx:352 | Each file input sets the file to its first file, or to none, without a MIME check. |
| SubmissionFormSimple.Form.SetTestMode | src/components/SubmissionFormSimple.tsx:245-253 | The mode buttons set test mode off or on. |
| SubmissionFormSimple.Form.SetTestQuestion | src/components/SubmissionFormSimple.tsx:271 | The text area sets the test question. |
| SubmissionFormSimple.Form.Submit | src/components/SubmissionFormSimple.tsx:54-111 | The outcome is Classify of the state before the click. A refused click changes nothing. Otherwise loading starts, the answer and error are cleared, one more call of the right kind is in flight, and the count of the other kind is unchanged. |
| SubmissionFormSimple.Form.UploadSettles | src/components/SubmissionFormSimple.tsx:75-100 | On success a placeholder timer is pending and loading goes on. On failure the error text, or "Erro no upload", is stored and loading ends. The loading invariant is kept. |
| SubmissionFormSimple.Form.PlaceholderTimerFires | src/components/SubmissionFormSimple.tsx:81-91 | The placeholder answer, stamped with the time the timer fired, is shown and loading ends. |
| SubmissionFormSimple.Form.TestSettles | src/components/SubmissionFormSimple.tsx:113-128 | The answer is shown only when the call succeeded with data. Otherwise the error text, or "Erro na API", is stored. Loading ends on every path. |
| SubmissionFormSimple.Form.NewQuestion | src/components/SubmissionFormSimple.tsx:131-138 | The file, answer, question and error are cleared. The mode and loading flag stay as they were. |
| SubmissionForm.SubmitDisabled | src/components/SubmissionForm.tsx:100 | The button is disabled exactly when the submit guard would refuse the click. |
| SubmissionForm.Form.constructor | src/components/SubmissionForm.tsx:10-13 | There is no file, no consent and an empty input. |
| SubmissionForm.Form.Drop | src/components/SubmissionForm.tsx:15-22 | A dropped file is kept only if its MIME type starts with video/ or audio/. |
| SubmissionForm.Form.ChooseFile | src/components/SubmissionForm.tsx:71 | The input sets the file to its first file, or to none, without a MIME check. |
| SubmissionForm.Form.SetConsent | src/components/SubmissionForm.tsx:85 | The consent box sets the consent. |
| SubmissionForm.Form.Submit | src/components/SubmissionForm.tsx:24-35 | A submit goes through exactly when a file and consent are both present (the guard at line 26), which is exactly when the button is enabled. Then the file, consent and input are cleared. Otherwise nothing changes. |
| LoadingStates.StageIndex | src/lib/api.ts:37 | A stage has a position iff it is one of the four known stages, and the position names it. |
| LoadingStates.GetIcon | src/components/LoadingStates.tsx:11-24 | A known stage's icon names that stage back. An unknown stage gets the upload icon. |
| LoadingStates.GetStageText | src/components/LoadingStates.tsx:26-39 | A known stage's title reads back as that stage. An unknown stage's title reads back as no stage. |
| LoadingStates.GetDescription | src/components/LoadingStates.tsx:41-54 | A known stage's description reads back as that stage. An unknown stage's description reads back as no stage. |
| LoadingStates.Indicators | src/components/LoadingStates.tsx:93-134 | There are four indicators. Indicator i is lit iff the stage is known and at position i or later. The last is lit iff the stage is "complete". |
| LoadingStates.LitCount | src/components/LoadingStates.tsx:93-134 | A known stage lights one indicator more than its position, and an unknown stage lights none. |
| LoadingStates.Render | src/components/LoadingStates.tsx:56-136 | The panel shows the percentage and message unchanged. For a known stage its icon, title and description all name the stage. An unknown stage shows the upload icon and a title and description that name no stage. Indicator i is lit iff the stage is known and at position i or later, so the last is lit iff the stage is complete. |
| LoadingStates.UploadSequenceLightsInOrder | src/lib/api.ts:51-94 | Along the reports of a successful upload, the k-th report lights exactly k indicators and the percentage strictly rises. |
| Scenarios.CompletionFlow | src/components/ProcessingProgress.tsx:60-82 | An update, a malformed message and a final completed snapshot report one completion. The stream ends closed and the Cancel button is gone. |
| Scenarios.BothCallbacksFlow | src/components/ProcessingProgress.tsx:67-77 | A completed snapshot that also carries an error reports completion, then failure. |
| Scenarios.ReconnectFlow | src/components/ProcessingProgress.tsx:84-103 | After a fatal transport error and the timer, the badge stays disconnected, and the replacement stream is still open after unmount. |
| Scenarios.CancelFlow | src/components/ProcessingProgress.tsx:106-112 | After a snapshot of a running job, the Cancel button is shown. Pressing it reports only the cancellation and stops listening, and a controller that was showing progress shows its form again. The flow starts from a controller already showing progress, a state the real `uploadQuestion` reply never produces (it sets no top-level session id). |
| Scenarios.UploadReplyWithoutSessionFlow | src/components/SubmissionFormUpdated.tsx:145-148 | A successful upload reply without a top-level session id leaves the form showing with its submit button disabled. |
| Scenarios.BlankQuestionFlow | src/components/SubmissionFormUpdated.tsx:161-165 | A test question made only of white space is refused and no call is made. |

## Left out

- Toasts, console logging and the DOM side of each handler (`preventDefault`, drag-highlight flags, object-URL previews, clearing an input element's value in SubmissionFormSimple and SubmissionFormUpdated) are not modelled. They do not change the state the components render from.
- Recording from the camera or microphone in SubmissionFormUpdated (`MediaRecorder`, `isRecording`, lines 61-123) is not modelled. It depends on browser media APIs. The only effect that reaches the modelled state is that the recording becomes the file, which `PickFile` covers.
- The network calls in src/lib/api.ts are not modelled as code. Each call is a value of type `ApiResponse` handed to the matching `...Settles` method. The upload's progress callbacks appear only as the constant `UploadSequence`.
- JSON parsing is abstracted: a message is either malformed or a parsed type with an optional session. Field values of unexpected JavaScript types are not modelled.
- ProcessingProgress.FormatTime and ReadTime cover whole numbers of seconds only. Fractional seconds, NaN and infinities are not modelled.
- ProcessingProgress.FormatTime uses unbounded integers, not JavaScript numbers. From 1e21 on, JavaScript prints a number in exponent form ("1e+21s"). Above 2^53, the division and remainder work on rounded values. The model's text and round trip hold for every integer, so they do not cover those two effects.
- ProcessingProgress.Tracker: the effect re-running when the callback props change identity is not modelled. Each tracker is one mount with one session id.
- ProcessingProgress.Tracker: the optional callbacks are assumed to be supplied. A missing callback only drops the notice.
- The rendering of the answer, video and share screens (ResponseDisplay, VideoResponse, HeroHeader, the Index page, clipboard and share) is not part of this model.
- A text area that is disabled while loading is not a precondition of SetTestQuestion. The model lets the question change at any time.
