/** The submission controller with consent, test mode and live progress
    (src/components/SubmissionFormUpdated.tsx). Each `await` splits a
    handler in two: the part up to the call is `Submit`, and the part after
    the call settles is `UploadSettles` or `TestSettles`. The counters of
    calls in flight stand for the pending promises. */
module SubmissionFormUpdated {
  import opened Common

  datatype SubmissionState = Idle | Processing | Completed | Error

  /** What `result` holds: the whole response object of a test call, or the
      result a finished session reported. */
  datatype Reply = TestReply(response: ApiResponse) | SessionReply(answer: Answer)

  /** Which of the three views the component renders. */
  datatype View = ProgressView(sessionId: string) | ResultView(result: Reply) | FormView

  /** How `handleSubmit` ended before its network call, or which call it made. */
  datatype SubmitStep = NeedsConsent | NoQuestion | NoFile | UploadStarted | TestStarted {
    predicate Rejected() {
      this == NeedsConsent || this == NoQuestion || this == NoFile
    }
  }

  /** The guards of `handleSubmit` and `handleTestSubmit`, in their order:
      consent first, then the question in test mode or the file otherwise. */
  function Classify(consent: bool, isTestMode: bool, file: Option<MediaFile>, testQuestion: string): (r: SubmitStep)
    ensures r.Rejected() <==> !consent || (isTestMode && IsBlank(testQuestion)) || (!isTestMode && file.None?)
    ensures r == UploadStarted <==> consent && !isTestMode && file.Some?
    ensures r == TestStarted <==> consent && isTestMode && !IsBlank(testQuestion)
  {
    if !consent then NeedsConsent
    else if isTestMode then (if IsBlank(testQuestion) then NoQuestion else TestStarted)
    else if file.None? then NoFile
    else UploadStarted
  }

  /** The submit button's `disabled` expression. It is disabled exactly when
      a click would be turned away by a guard, or while processing. */
  function SubmitDisabled(
    file: Option<MediaFile>, isTestMode: bool, testQuestion: string,
    consent: bool, state: SubmissionState): (r: bool)
    ensures r <==> Classify(consent, isTestMode, file, testQuestion).Rejected() || state == Processing
  {
    (file.None? && !isTestMode) || (IsBlank(testQuestion) && isTestMode) || !consent || state == Processing
  }

  /** The render selection: progress while processing with a session id,
      the result once completed with a result, the form otherwise. */
  function ViewOf(state: SubmissionState, sessionId: Option<string>, result: Option<Reply>): (v: View)
    ensures v.ProgressView? <==> state == Processing && Truthy(sessionId)
    ensures v.ProgressView? ==> v.sessionId == sessionId.value
    ensures v.ResultView? <==> state == Completed && result.Some?
    ensures v.ResultView? ==> v.result == result.value
    ensures v.FormView? <==> !(state == Processing && Truthy(sessionId)) && !(state == Completed && result.Some?)
  {
    if state == Processing && Truthy(sessionId) then ProgressView(sessionId.value)
    else if state == Completed && result.Some? then ResultView(result.value)
    else FormView
  }

  const UploadFailure := "Erro no upload"
  const TestFailure := "Erro na geração de resposta"

  class Form {
    var file: Option<MediaFile>
    var consent: bool
    var state: SubmissionState
    var sessionId: Option<string>
    var result: Option<Reply>
    var error: Option<string>
    var isTestMode: bool
    var testQuestion: string
    var uploadsInFlight: nat
    var testsInFlight: nat

    /** A completed controller has a result, and a failed one a message. */
    ghost predicate Valid()
      reads this
    {
      (state == Completed ==> result.Some?) && (state == Error ==> error.Some?)
    }

    /** What the component renders; a valid completed controller always
        shows its result. */
    function View(): (v: View)
      reads this
      ensures Valid() && state == Completed ==> v.ResultView?
    {
      ViewOf(state, sessionId, result)
    }

    constructor ()
      ensures Valid()
      ensures file == None && !consent && state == Idle && sessionId == None
      ensures result == None && error == None && !isTestMode && testQuestion == ""
      ensures uploadsInFlight == 0 && testsInFlight == 0
    {
      file, consent, state, sessionId := None, false, Idle, None;
      result, error, isTestMode, testQuestion := None, None, false, "";
      uploadsInFlight, testsInFlight := 0, 0;
    }

    /** `handleFileSelect` and `handleDrop`: a file, if one was picked,
        replaces the current one; there is no MIME check. */
    method PickFile(picked: Option<MediaFile>)
      modifies this`file
      ensures file == if picked.Some? then picked else old(file)
    {
      if picked.Some? {
        file := picked;
      }
    }

    method SetConsent(checked: bool)
      modifies this`consent
      ensures consent == checked
    {
      consent := checked;
    }

    method SetTestMode(on: bool)
      modifies this`isTestMode
      ensures isTestMode == on
    {
      isTestMode := on;
    }

    method SetTestQuestion(text: string)
      modifies this`testQuestion
      ensures testQuestion == text
    {
      testQuestion := text;
    }

    /** `handleSubmit` (and `handleTestSubmit` in test mode) up to the
        network call. A rejected click changes nothing; otherwise the state
        becomes processing, the error is cleared and one call is in flight. */
    method Submit() returns (step: SubmitStep)
      requires Valid()
      modifies this`state, this`error, this`uploadsInFlight, this`testsInFlight
      ensures Valid()
      ensures step == Classify(old(consent), old(isTestMode), old(file), old(testQuestion))
      ensures step.Rejected() ==>
        && state == old(state) && error == old(error)
        && uploadsInFlight == old(uploadsInFlight) && testsInFlight == old(testsInFlight)
      ensures !step.Rejected() ==> state == Processing && error == None
      ensures step == UploadStarted ==>
        uploadsInFlight == old(uploadsInFlight) + 1 && testsInFlight == old(testsInFlight)
      ensures step == TestStarted ==>
        testsInFlight == old(testsInFlight) + 1 && uploadsInFlight == old(uploadsInFlight)
    {
      if !consent {
        return NeedsConsent;
      }
      if isTestMode {
        if IsBlank(testQuestion) {
          return NoQuestion;
        }
        state := Processing;
        error := None;
        testsInFlight := testsInFlight + 1;
        return TestStarted;
      }
      if file.None? {
        return NoFile;
      }
      state := Processing;
      error := None;
      uploadsInFlight := uploadsInFlight + 1;
      return UploadStarted;
    }

    /** The rest of `handleSubmit` once the upload resolves: the session id
        the response carries is stored, or the controller fails with the
        response's message (or a fixed one). */
    method UploadSettles(response: ApiResponse)
      requires Valid() && uploadsInFlight > 0
      modifies this`sessionId, this`error, this`state, this`uploadsInFlight
      ensures Valid()
      ensures uploadsInFlight == old(uploadsInFlight) - 1
      ensures response.success ==>
        sessionId == response.sessionId && state == old(state) && error == old(error)
      ensures !response.success ==>
        && sessionId == old(sessionId)
        && error == Some(ErrorText(response.error, UploadFailure))
        && state == Error
    {
      uploadsInFlight := uploadsInFlight - 1;
      if response.success {
        sessionId := response.sessionId;
      } else {
        error := Some(ErrorText(response.error, UploadFailure));
        state := Error;
      }
    }

    /** The rest of `handleTestSubmit` once the test call resolves: the
        response is stored as the result and the controller completes, or it
        fails with the response's message (or a fixed one). */
    method TestSettles(response: ApiResponse)
      requires Valid() && testsInFlight > 0
      modifies this`result, this`error, this`state, this`testsInFlight
      ensures Valid()
      ensures testsInFlight == old(testsInFlight) - 1
      ensures response.success ==>
        result == Some(TestReply(response)) && state == Completed && error == old(error)
      ensures !response.success ==>
        && result == old(result)
        && error == Some(ErrorText(response.error, TestFailure))
        && state == Error
    {
      testsInFlight := testsInFlight - 1;
      if response.success {
        result := Some(TestReply(response));
        state := Completed;
      } else {
        error := Some(ErrorText(response.error, TestFailure));
        state := Error;
      }
    }

    /** `handleProcessingComplete`, the tracker's completion callback. */
    method ProcessingComplete(answer: Answer)
      requires Valid()
      modifies this`result, this`state, this`sessionId
      ensures Valid()
      ensures result == Some(SessionReply(answer)) && state == Completed && sessionId == None
    {
      result := Some(SessionReply(answer));
      state := Completed;
      sessionId := None;
    }

    /** `handleProcessingError`, the tracker's failure callback. */
    method ProcessingError(message: string)
      requires Valid()
      modifies this`error, this`state, this`sessionId
      ensures Valid()
      ensures error == Some(message) && state == Error && sessionId == None
    {
      error := Some(message);
      state := Error;
      sessionId := None;
    }

    /** `handleProcessingCancel`, the tracker's cancel callback. */
    method ProcessingCancel()
      requires Valid()
      modifies this`state, this`sessionId, this`error
      ensures Valid()
      ensures state == Idle && sessionId == None && error == None
    {
      state := Idle;
      sessionId := None;
      error := None;
    }

    /** `resetForm`: every field back to its initial value except the mode;
        calls still in flight are not cancelled. */
    method Reset()
      requires Valid()
      modifies this`file, this`testQuestion, this`state, this`sessionId, this`result, this`error, this`consent
      ensures Valid()
      ensures file == None && testQuestion == "" && state == Idle
      ensures sessionId == None && result == None && error == None && !consent
    {
      file := None;
      testQuestion := "";
      state := Idle;
      sessionId := None;
      result := None;
      error := None;
      consent := false;
    }
  }
}
