/** Client code that drives the components through whole flows, using only
    the contracts of their handlers. Each flow returns what a user would
    observe at its end. */
module Scenarios {
  import opened Common
  import opened ProcessingProgress
  import SubmissionFormUpdated

  function Snapshot(progress: int, completed: bool, result: Option<Answer>, error: Option<string>): Session {
    Session("abc123", "transcription", progress, "", None, [], completed, error, result)
  }

  /** A progress update, then a malformed message, then the final
      snapshot: completion is reported once and the stream closes, and the
      Cancel button is gone. */
  method CompletionFlow() returns (reported: seq<Notice>, listening: bool, cancelShown: bool)
    ensures reported == [Completed(Answer("Q", "R", ""))]
    ensures !listening && !cancelShown
  {
    var t := new Tracker("abc123");
    t.OnOpen();
    var s1 := Snapshot(40, false, None, None);
    t.OnMessage(Parsed("update", Some(s1)));
    assert t.session == Some(s1) && t.notices == [] && t.Listening();
    assert t.CancelVisible();

    t.OnMessage(Malformed);
    assert t.session == Some(s1) && t.Listening();

    var answer := Answer("Q", "R", "");
    var s2 := Snapshot(100, true, Some(answer), None);
    t.OnMessage(Parsed("update", Some(s2)));
    reported, listening, cancelShown := t.notices, t.Listening(), t.CancelVisible();
  }

  /** A snapshot that is completed with a result and also carries an error
      fires both callbacks, completion first. */
  method BothCallbacksFlow() returns (reported: seq<Notice>)
    ensures reported == [Completed(Answer("Q", "R", "")), Failed("falhou")]
  {
    var t := new Tracker("abc123");
    t.OnOpen();
    var answer := Answer("Q", "R", "");
    var s := Snapshot(100, true, Some(answer), Some("falhou"));
    t.OnMessage(Parsed("status", Some(s)));
    reported := t.notices;
  }

  /** A transport error that closes the stream, then the timer: a
      replacement stream is opened, but it has no handlers and the badge
      stays disconnected; unmounting then leaves the replacement open. */
  method ReconnectFlow() returns (connected: bool, afterUnmount: seq<bool>)
    ensures !connected
    ensures afterUnmount == [false, true]
  {
    var t := new Tracker("abc123");
    t.OnOpen();
    t.OnTransportError(true);
    t.ReconnectTimerFires();
    assert t.streams == [false, true] && t.eventSource == Some(1) && !t.Listening();
    connected := t.isConnected;
    t.Unmount();
    afterUnmount := t.streams;
  }

  /** While the form shows progress for a session, the stream reports it
      still running, so the Cancel button is shown; pressing it closes the
      stream and reports the cancellation and nothing else, and the form
      goes back to idle and shows itself. The form is given already showing
      progress: an upload reply as `uploadQuestion` builds it has no
      top-level session id and so never leads there (see
      UploadReplyWithoutSessionFlow). */
  method CancelFlow(form: SubmissionFormUpdated.Form)
    returns (reported: seq<Notice>, listening: bool, view: SubmissionFormUpdated.View)
    requires form.Valid() && form.View() == SubmissionFormUpdated.ProgressView("abc123")
    modifies form
    ensures reported == [Cancelled] && !listening
    ensures view == SubmissionFormUpdated.FormView
  {
    var t := new Tracker("abc123");
    t.OnOpen();
    var s := Snapshot(40, false, None, None);
    t.OnMessage(Parsed("update", Some(s)));
    assert t.session == Some(s) && t.notices == [] && t.Listening();
    assert t.CancelVisible();
    t.Cancel();
    form.ProcessingCancel();
    reported, listening, view := t.notices, t.Listening(), form.View();
  }

  /** An upload reply shaped as `uploadQuestion` builds it (the server's
      body under `data`, no top-level session id) leaves the controller
      processing with no session: the form shows again with its submit
      button disabled, and no progress tracker is mounted. */
  method UploadReplyWithoutSessionFlow(video: MediaFile, body: Option<Answer>)
    returns (view: SubmissionFormUpdated.View, disabled: bool)
    ensures view == SubmissionFormUpdated.FormView
    ensures disabled
  {
    var form := new SubmissionFormUpdated.Form();
    form.PickFile(Some(video));
    form.SetConsent(true);
    var step := form.Submit();
    form.UploadSettles(ApiResponse(true, body, None, None));
    view := form.View();
    disabled := SubmissionFormUpdated.SubmitDisabled(
      form.file, form.isTestMode, form.testQuestion, form.consent, form.state);
  }

  /** A test question made only of white space is turned away before any
      call is made. */
  method BlankQuestionFlow(question: string) returns (step: SubmissionFormUpdated.SubmitStep, calls: nat)
    requires AllWhitespace(question)
    ensures step == SubmissionFormUpdated.NoQuestion && calls == 0
  {
    var form := new SubmissionFormUpdated.Form();
    form.SetConsent(true);
    form.SetTestMode(true);
    form.SetTestQuestion(question);
    assert form.Valid() && form.consent && form.isTestMode && form.testQuestion == question;
    BlankIffAllWhitespace(question);
    step := form.Submit();
    calls := form.testsInFlight + form.uploadsInFlight;
  }
}
