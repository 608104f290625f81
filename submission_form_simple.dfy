/** The simplified submission form (src/components/SubmissionFormSimple.tsx):
    a loading flag, an answer shown once it arrives, and a timer that
    delivers a placeholder answer after a successful upload. Each `await`
    splits a handler in two (`Submit` up to the call, `*Settles` after it);
    the counters stand for pending promises and pending timers. */
module SubmissionFormSimple {
  import opened Common

  /** Which of the three screens the component renders. */
  datatype View = ResponseView(answer: Answer) | LoadingView | FormView

  /** How `onSubmit` ended before its network call, or which call it made. */
  datatype SubmitStep = NoFile | NoQuestion | UploadStarted | TestStarted {
    predicate Rejected() {
      this == NoFile || this == NoQuestion
    }
  }

  /** `onSubmit` dispatching to `handleTestSubmit` or `handleFileSubmit`,
      and their guards. */
  function Classify(isTestMode: bool, file: Option<MediaFile>, testQuestion: string): (r: SubmitStep)
    ensures r.Rejected() <==> (isTestMode && IsBlank(testQuestion)) || (!isTestMode && file.None?)
    ensures r == UploadStarted <==> !isTestMode && file.Some?
    ensures r == TestStarted <==> isTestMode && !IsBlank(testQuestion)
  {
    if isTestMode then (if IsBlank(testQuestion) then NoQuestion else TestStarted)
    else if file.None? then NoFile
    else UploadStarted
  }

  /** The submit buttons' `disabled` expressions (one per mode): disabled
      exactly when the guard would turn the click away, or while loading. */
  function SubmitDisabled(isTestMode: bool, file: Option<MediaFile>, testQuestion: string, isLoading: bool): (r: bool)
    ensures r <==> Classify(isTestMode, file, testQuestion).Rejected() || isLoading
  {
    if isTestMode then IsBlank(testQuestion) || isLoading else file.None? || isLoading
  }

  /** The render priority: an answer wins over loading, loading over the form. */
  function ViewOf(response: Option<Answer>, isLoading: bool): (v: View)
    ensures v.ResponseView? <==> response.Some?
    ensures v.ResponseView? ==> v.answer == response.value
    ensures v == LoadingView <==> response.None? && isLoading
    ensures v == FormView <==> response.None? && !isLoading
  {
    if response.Some? then ResponseView(response.value)
    else if isLoading then LoadingView
    else FormView
  }

  const UploadFailure := "Erro no upload"
  const TestFailure := "Erro na API"

  /** The answer the upload path shows after its timer: fixed texts, no
      media, and the time the timer fired. */
  function Placeholder(now: string): Answer {
    Answer("Pergunta do arquivo enviado", "Resposta simulada do Capitão Caverna para teste.", now)
  }

  class Form {
    var file: Option<MediaFile>
    var isLoading: bool
    var response: Option<Answer>
    var isTestMode: bool
    var testQuestion: string
    var error: Option<string>
    var uploadsInFlight: nat
    var testsInFlight: nat
    var placeholderTimers: nat

    /** The loading screen never shows without something pending that will
        end it: a call in flight or a placeholder timer. */
    ghost predicate Valid()
      reads this
    {
      isLoading ==> uploadsInFlight + testsInFlight + placeholderTimers > 0
    }

    function View(): View
      reads this
    {
      ViewOf(response, isLoading)
    }

    constructor ()
      ensures Valid()
      ensures file == None && !isLoading && response == None && !isTestMode
      ensures testQuestion == "" && error == None
      ensures uploadsInFlight == 0 && testsInFlight == 0 && placeholderTimers == 0
    {
      file, isLoading, response, isTestMode := None, false, None, false;
      testQuestion, error := "", None;
      uploadsInFlight, testsInFlight, placeholderTimers := 0, 0, 0;
    }

    /** `onDrop`: the dropped file is kept only if it is video or audio. */
    method Drop(dropped: Option<MediaFile>)
      modifies this`file
      ensures file == if dropped.Some? && IsPlayableMedia(dropped.value) then dropped else old(file)
    {
      if dropped.Some? && IsPlayableMedia(dropped.value) {
        file := dropped;
      }
    }

    /** The video and audio inputs' `onChange`: the first selected file, or
        none, with no MIME check. */
    method ChooseFile(selected: Option<MediaFile>)
      modifies this`file
      ensures file == selected
    {
      file := selected;
    }

    method SetTestMode(on: bool)
      modifies this`isTestMode
      ensures isTestMode == on
    {
      isTestMode := on;
    }

    method SetTestQuestion(text: string)
      modifies this`testQuestion
      ensures testQuestion == text
    {
      testQuestion := text;
    }

    /** `onSubmit` up to the network call: a rejected submit changes
        nothing; otherwise loading starts, the answer and the error are
        cleared and one call is in flight. */
    method Submit() returns (step: SubmitStep)
      requires Valid()
      modifies this`isLoading, this`response, this`error, this`uploadsInFlight, this`testsInFlight
      ensures Valid()
      ensures step == Classify(old(isTestMode), old(file), old(testQuestion))
      ensures step.Rejected() ==>
        && isLoading == old(isLoading) && response == old(response) && error == old(error)
        && uploadsInFlight == old(uploadsInFlight) && testsInFlight == old(testsInFlight)
      ensures !step.Rejected() ==> isLoading && response == None && error == None
      ensures step == UploadStarted ==>
        uploadsInFlight == old(uploadsInFlight) + 1 && testsInFlight == old(testsInFlight)
      ensures step == TestStarted ==>
        testsInFlight == old(testsInFlight) + 1 && uploadsInFlight == old(uploadsInFlight)
    {
      if isTestMode {
        if IsBlank(testQuestion) {
          return NoQuestion;
        }
        isLoading := true;
        response := None;
        error := None;
        testsInFlight := testsInFlight + 1;
        return TestStarted;
      }
      if file.None? {
        return NoFile;
      }
      isLoading := true;
      response := None;
      error := None;
      uploadsInFlight := uploadsInFlight + 1;
      return UploadStarted;
    }

    /** The rest of `handleFileSubmit`: on success a placeholder timer is set
        and loading goes on; on failure the message is stored and loading
        ends. */
    method UploadSettles(result: ApiResponse)
      requires Valid() && uploadsInFlight > 0
      modifies this`uploadsInFlight, this`placeholderTimers, this`error, this`isLoading
      ensures Valid()
      ensures uploadsInFlight == old(uploadsInFlight) - 1
      ensures result.success ==>
        && placeholderTimers == old(placeholderTimers) + 1
        && isLoading == old(isLoading) && error == old(error)
      ensures !result.success ==>
        && placeholderTimers == old(placeholderTimers)
        && error == Some(ErrorText(result.error, UploadFailure)) && !isLoading
    {
      uploadsInFlight := uploadsInFlight - 1;
      if result.success {
        placeholderTimers := placeholderTimers + 1;
      } else {
        error := Some(ErrorText(result.error, UploadFailure));
        isLoading := false;
      }
    }

    /** The 3-second timer of the upload path: shows the placeholder answer
        and ends loading. */
    method PlaceholderTimerFires(now: string)
      requires Valid() && placeholderTimers > 0
      modifies this`placeholderTimers, this`response, this`isLoading
      ensures Valid()
      ensures placeholderTimers == old(placeholderTimers) - 1
      ensures response == Some(Placeholder(now)) && !isLoading
    {
      placeholderTimers := placeholderTimers - 1;
      response := Some(Placeholder(now));
      isLoading := false;
    }

    /** The rest of `handleTestSubmit`: the answer is shown only when the
        call succeeded and carried data, otherwise the message is stored;
        loading ends on every path. */
    method TestSettles(result: ApiResponse)
      requires Valid() && testsInFlight > 0
      modifies this`testsInFlight, this`response, this`error, this`isLoading
      ensures Valid()
      ensures testsInFlight == old(testsInFlight) - 1
      ensures !isLoading
      ensures result.success && result.data.Some? ==>
        response == result.data && error == old(error)
      ensures !(result.success && result.data.Some?) ==>
        response == old(response) && error == Some(ErrorText(result.error, TestFailure))
    {
      testsInFlight := testsInFlight - 1;
      if result.success && result.data.Some? {
        response := result.data;
      } else {
        error := Some(ErrorText(result.error, TestFailure));
      }
      isLoading := false;
    }

    /** `handleNewQuestion`: clears the file, the answer, the question and
        the error; the mode and the loading flag stay as they were. */
    method NewQuestion()
      requires Valid()
      modifies this`file, this`response, this`testQuestion, this`error
      ensures Valid()
      ensures file == None && response == None && testQuestion == "" && error == None
    {
      file := None;
      response := None;
      testQuestion := "";
      error := None;
    }
  }
}
