/** The processing-stream tracker (src/components/ProcessingProgress.tsx):
    it follows one server-side job over a push stream, keeps the latest
    session snapshot, and reports completion, failure or cancellation to its
    caller. The stream transport is abstract: opening, messages, transport
    errors and the reconnect timer are explicit method calls. */
module ProcessingProgress {
  import opened Common

  datatype Step = Step(
    id: string,
    name: string,
    progress: int,
    completed: bool,
    error: Option<string>)

  /** A session snapshot as the server pushes it. An absent `completed`
      reads as false; an absent or falsy `result` is None. */
  datatype Session = Session(
    id: string,
    currentStep: string,
    progress: int,
    message: string,
    estimatedTimeRemaining: Option<int>,
    steps: seq<Step>,
    completed: bool,
    error: Option<string>,
    result: Option<Answer>)

  /** An inbound stream message after `JSON.parse`: either it failed to parse,
      or it has a `type` and possibly a `session`. */
  datatype Payload = Malformed | Parsed(kind: string, session: Option<Session>)

  /** A call the tracker makes into its caller. */
  datatype Notice = Completed(result: Answer) | Failed(error: string) | Cancelled

  /** What one message does to the tracker: nothing but a log line, or a
      wholesale replacement of the snapshot, the callbacks it fires in order,
      and whether the stream is closed. */
  datatype Reaction = Ignore | Apply(session: Option<Session>, notices: seq<Notice>, close: bool)

  /** Whether a snapshot still offers the Cancel button. A snapshot that
      offers it fires no callback. */
  predicate ShowCancel(s: Session)
    ensures ShowCancel(s) ==> SnapshotNotices(s) == []
  {
    !s.completed && !Truthy(s.error)
  }

  /** The message types that carry a session snapshot. */
  predicate CarriesSnapshot(kind: string) {
    kind == "status" || kind == "update"
  }

  /** The `onmessage` handler as a function of the parsed payload.
      A status/update payload without a session still stores it (as absent)
      before the property access on it throws and is logged. */
  function Dispatch(p: Payload): (r: Reaction)
    ensures r.Apply? <==> p.Parsed? && CarriesSnapshot(p.kind)
    ensures r.Apply? ==> r.session == p.session
    ensures r.Apply? ==> (r.close <==> r.notices != [])
    ensures r.Apply? ==> |r.notices| <= 2 && Cancelled !in r.notices
    ensures r.Apply? ==> forall a :: Completed(a) in r.notices <==>
      r.session.Some? && r.session.value.completed && r.session.value.result == Some(a)
    ensures r.Apply? ==> forall e :: Failed(e) in r.notices <==>
      r.session.Some? && Truthy(r.session.value.error) && r.session.value.error.value == e
    ensures r.Apply? && |r.notices| == 2 ==> r.notices[0].Completed? && r.notices[1].Failed?
    ensures r.Apply? && r.notices != [] ==> r.session.Some? && !ShowCancel(r.session.value)
  {
    if p.Malformed? || !CarriesSnapshot(p.kind) then Ignore
    else if p.session.None? then Apply(None, [], false)
    else
      var ns := SnapshotNotices(p.session.value);
      Apply(p.session, ns, ns != [])
  }

  /** The callbacks one snapshot fires, in order: completion when it is
      completed with a result, then failure when it carries a truthy error. */
  function SnapshotNotices(s: Session): (ns: seq<Notice>)
    ensures |ns| <= 2 && Cancelled !in ns
    ensures forall a :: Completed(a) in ns <==> s.completed && s.result == Some(a)
    ensures forall e :: Failed(e) in ns <==> Truthy(s.error) && s.error.value == e
    ensures |ns| == 2 ==> ns[0].Completed? && ns[1].Failed?
  {
    var done := if s.completed && s.result.Some? then [Completed(s.result.value)] else [];
    var failed := if Truthy(s.error) then [Failed(s.error.value)] else [];
    done + failed
  }

  // Counting the callbacks fired so far.

  datatype NoticeKind = CompletedKind | FailedKind | CancelledKind

  function KindOf(n: Notice): NoticeKind {
    match n
    case Completed(_) => CompletedKind
    case Failed(_) => FailedKind
    case Cancelled => CancelledKind
  }

  /** How many of the notices are of the given kind. */
  function Count(ns: seq<Notice>, k: NoticeKind): (c: nat)
    ensures c <= |ns|
    ensures c == 0 <==> forall i :: 0 <= i < |ns| ==> KindOf(ns[i]) != k
  {
    if ns == [] then 0 else (if KindOf(ns[0]) == k then 1 else 0) + Count(ns[1..], k)
  }

  lemma {:induction false} CountAppend(a: seq<Notice>, b: seq<Notice>, k: NoticeKind)
    ensures Count(a + b, k) == Count(a, k) + Count(b, k)
  {
    if a != [] {
      assert (a + b)[0] == a[0];
      assert (a + b)[1..] == a[1..] + b;
      CountAppend(a[1..], b, k);
    } else {
      assert a + b == b;
    }
  }

  /** No completion or failure is reported after a cancellation. */
  predicate NothingAfterCancel(ns: seq<Notice>) {
    forall i, j :: 0 <= i < j < |ns| && ns[i] == Cancelled ==> ns[j] == Cancelled
  }

  /** A history with no cancellation, extended by notices that hold none,
      still has nothing after a cancellation. */
  lemma NoCancelAppended(history: seq<Notice>, more: seq<Notice>)
    requires Count(history, CancelledKind) == 0 && Cancelled !in more
    ensures Cancelled !in history + more
    ensures NothingAfterCancel(history + more)
  {
  }

  /** Appending a cancellation keeps nothing but cancellations after the
      first one. */
  lemma CancelAppended(history: seq<Notice>)
    requires NothingAfterCancel(history)
    ensures NothingAfterCancel(history + [Cancelled])
  {
    var ns := history + [Cancelled];
    forall i, j | 0 <= i < j < |ns| && ns[i] == Cancelled
      ensures ns[j] == Cancelled
    {
      if j < |history| {
        assert history[i] == ns[i] && history[j] == ns[j];
      }
    }
  }

  /** The callbacks one snapshot fires: at most one completion and at most
      one failure. */
  lemma SnapshotCounts(s: Session)
    ensures Count(SnapshotNotices(s), CompletedKind) <= 1
    ensures Count(SnapshotNotices(s), FailedKind) <= 1
    ensures Count(SnapshotNotices(s), CancelledKind) == 0
  {
    var ns := SnapshotNotices(s);
    if |ns| == 2 {
      assert ns == [ns[0]] + [ns[1]];
      CountAppend([ns[0]], [ns[1]], CompletedKind);
      CountAppend([ns[0]], [ns[1]], FailedKind);
    }
  }

  /** Appending one snapshot's callbacks to a history with none keeps each
      kind at most once. */
  lemma CallbacksFireOnce(history: seq<Notice>, s: Session)
    requires Count(history, CompletedKind) == 0 && Count(history, FailedKind) == 0
    ensures Count(history + SnapshotNotices(s), CompletedKind) <= 1
    ensures Count(history + SnapshotNotices(s), FailedKind) <= 1
  {
    SnapshotCounts(s);
    CountAppend(history, SnapshotNotices(s), CompletedKind);
    CountAppend(history, SnapshotNotices(s), FailedKind);
  }

  // Step display.

  datatype StepStatus = StepError | StepCompleted | StepProcessing | StepPending

  /** `getStepStatus`: an error wins over completion, completion over being
      the current step, and anything else is pending. */
  function GetStepStatus(step: Step, isCurrentStep: bool): (r: StepStatus)
    ensures r == StepError <==> Truthy(step.error)
    ensures r == StepCompleted <==> !Truthy(step.error) && step.completed
    ensures r == StepProcessing <==> !Truthy(step.error) && !step.completed && isCurrentStep
    ensures r == StepPending <==> !Truthy(step.error) && !step.completed && !isCurrentStep
  {
    if Truthy(step.error) then StepError
    else if step.completed then StepCompleted
    else if isCurrentStep then StepProcessing
    else StepPending
  }

  datatype StepIcon = AlertIcon | CheckIcon | SpinnerIcon | ClockIcon

  /** `getStepIcon`, written independently of GetStepStatus; the icon always
      agrees with the status. */
  function GetStepIcon(step: Step, isCurrentStep: bool): (r: StepIcon)
    ensures r == match GetStepStatus(step, isCurrentStep)
                 case StepError => AlertIcon
                 case StepCompleted => CheckIcon
                 case StepProcessing => SpinnerIcon
                 case StepPending => ClockIcon
  {
    if step.error.Some? && step.error.value != "" then AlertIcon
    else if step.completed then CheckIcon
    else if isCurrentStep then SpinnerIcon
    else ClockIcon
  }

  predicate UniqueStepIds(steps: seq<Step>) {
    forall i, j :: 0 <= i < j < |steps| ==> steps[i].id != steps[j].id
  }

  /** The status of every listed step, the current one being the step whose
      id is the session's `currentStep`. With unique step ids at most one
      step shows as processing. */
  function StepStatuses(s: Session): (r: seq<StepStatus>)
    ensures |r| == |s.steps|
    ensures forall i :: 0 <= i < |r| ==> (r[i] == StepError <==> Truthy(s.steps[i].error))
    ensures forall i :: 0 <= i < |r| ==>
      (r[i] == StepCompleted <==> !Truthy(s.steps[i].error) && s.steps[i].completed)
    ensures forall i :: 0 <= i < |r| ==>
      (r[i] == StepProcessing <==>
        !Truthy(s.steps[i].error) && !s.steps[i].completed && s.steps[i].id == s.currentStep)
    ensures forall i :: 0 <= i < |r| ==>
      (r[i] == StepPending <==>
        !Truthy(s.steps[i].error) && !s.steps[i].completed && s.steps[i].id != s.currentStep)
    ensures UniqueStepIds(s.steps) ==>
      forall i, j :: 0 <= i < j < |r| ==> !(r[i] == StepProcessing && r[j] == StepProcessing)
  {
    seq(|s.steps|, i requires 0 <= i < |s.steps| => GetStepStatus(s.steps[i], s.currentStep == s.steps[i].id))
  }

  // Remaining-time text.

  /** `formatTime`: under a minute as "Ns", otherwise as "Mm Ss". The text
      always ends in 's' and names minutes exactly when the time is a minute
      or more; FormatTimeRoundTrip shows that it names the time exactly. */
  function FormatTime(seconds: int): (r: string)
    ensures |r| >= 2 && r[|r| - 1] == 's'
    ensures 'm' in r <==> seconds >= 60
  {
    if seconds < 60 then
      NoLetterInNumber(seconds);
      var r := IntText(seconds) + "s";
      assert r[..|r| - 1] == IntText(seconds);
      r
    else
      var r := Digits(seconds / 60) + "m " + Digits(seconds % 60) + "s";
      assert r[|Digits(seconds / 60)|] == 'm';
      r
  }

  /** The first position of `c` in `s`. */
  function IndexOf(s: string, c: char): (r: Option<nat>)
    ensures r.Some? ==> r.value < |s| && s[r.value] == c && c !in s[..r.value]
    ensures r.None? ==> c !in s
  {
    if s == [] then None
    else if s[0] == c then Some(0)
    else
      var k := IndexOf(s[1..], c);
      if k.None? then None
      else
        assert s[..k.value + 1] == [s[0]] + s[1..][..k.value];
        Some(k.value + 1)
  }

  /** Reads a remaining-time text back into seconds: "Ns" with N below 60,
      or "Mm Ss" with M at least 1 and S below 60. The reference inverse of
      FormatTime. */
  function ReadTime(t: string): Option<int> {
    if t == [] || t[|t| - 1] != 's' then None
    else
      var body := t[..|t| - 1];
      var k := IndexOf(body, 'm');
      if k.None? then ReadSeconds(body) else ReadMinutes(body, k.value)
  }

  /** "N" with N below 60. */
  function ReadSeconds(body: string): Option<int> {
    var v := ParseInt(body);
    if v.Some? && v.value < 60 then v else None
  }

  /** "M" then "m " then "S", the 'm' at position k, M at least 1 and S below 60. */
  function ReadMinutes(body: string, k: nat): Option<int>
    requires k < |body|
  {
    if k + 1 < |body| && body[k + 1] == ' ' then
      var m := ParseDigits(body[..k]);
      var r := ParseDigits(body[k + 2..]);
      if m.Some? && r.Some? && m.value >= 1 && r.value < 60 then Some(m.value * 60 + r.value)
      else None
    else None
  }

  lemma NoLetterInNumber(n: int)
    ensures 'm' !in IntText(n) && 'm' !in Digits(if n < 0 then -n else n)
  {
    var d := Digits(if n < 0 then -n else n);
    assert forall i :: 0 <= i < |d| ==> d[i] != 'm';
    if n < 0 {
      assert IntText(n) == "-" + d;
    }
  }

  /** Reading a text that ends in 's' looks at what comes before it. */
  lemma ReadTimeOf(body: string)
    ensures ReadTime(body + "s") ==
      var k := IndexOf(body, 'm');
      if k.None? then ReadSeconds(body) else ReadMinutes(body, k.value)
  {
    var t := body + "s";
    assert t[..|t| - 1] == body;
  }

  lemma ReadShortTime(n: int)
    requires n < 60
    ensures ReadTime(IntText(n) + "s") == Some(n)
  {
    ReadTimeOf(IntText(n));
    NoLetterInNumber(n);
    IntTextRoundTrip(n);
  }

  /** In a number followed by "m ...", the first 'm' is the one after the
      number. */
  lemma MinutesMarker(dm: string, rest: string)
    requires 'm' !in dm && rest != [] && rest[0] == 'm'
    ensures IndexOf(dm + rest, 'm') == Some(|dm|)
  {
    var body := dm + rest;
    assert body[|dm|] == 'm';
  }

  /** A body with a space after the marker, a number M of at least 1 before
      it and a number S below 60 after the space reads as M minutes and S
      seconds. */
  lemma ReadMinutesAt(body: string, k: nat, m: nat, r: nat)
    requires k + 1 < |body| && body[k + 1] == ' '
    requires ParseDigits(body[..k]) == Some(m) && m >= 1
    requires ParseDigits(body[k + 2..]) == Some(r) && r < 60
    ensures ReadMinutes(body, k) == Some(m * 60 + r)
  {
  }

  lemma ReadMinutesOf(m: nat, r: nat)
    requires m >= 1 && r < 60
    ensures ReadMinutes(Digits(m) + "m " + Digits(r), |Digits(m)|) == Some(m * 60 + r)
  {
    var dm, dr := Digits(m), Digits(r);
    var body := dm + "m " + dr;
    assert body[..|dm|] == dm;
    assert body[|dm| + 2..] == dr;
    DigitsRoundTrip(m);
    DigitsRoundTrip(r);
    ReadMinutesAt(body, |dm|, m, r);
  }

  lemma ReadLongTime(m: nat, r: nat)
    requires m >= 1 && r < 60
    ensures ReadTime(Digits(m) + "m " + Digits(r) + "s") == Some(m * 60 + r)
  {
    var dm, dr := Digits(m), Digits(r);
    var body := dm + "m " + dr;
    assert body == dm + ("m " + dr);
    NoLetterInNumber(m);
    MinutesMarker(dm, "m " + dr);
    ReadMinutesOf(m, r);
    ReadTimeOf(body);
  }

  /** The remaining-time text names the time exactly: reading it back gives
      the number of seconds, so the minutes times 60 plus the seconds part is
      the input, and the seconds part is below 60. */
  lemma FormatTimeRoundTrip(seconds: int)
    ensures ReadTime(FormatTime(seconds)) == Some(seconds)
  {
    if seconds < 60 {
      ReadShortTime(seconds);
    } else {
      ReadLongTime(seconds / 60, seconds % 60);
    }
  }

  /** What `{session.estimatedTimeRemaining && (...)}` renders: nothing for
      an absent estimate, the bare number 0 for a zero estimate (React prints
      the falsy number the `&&` yields), and the remaining-time line for
      any other estimate. */
  datatype EstimateLine = NoLine | StrayZero | Remaining(text: string)

  /** The remaining-time area of the snapshot card. */
  function EstimateText(s: Session): (r: EstimateLine)
    ensures r == NoLine <==> s.estimatedTimeRemaining.None?
    ensures r == StrayZero <==> s.estimatedTimeRemaining == Some(0)
    ensures r.Remaining? <==> s.estimatedTimeRemaining.Some? && s.estimatedTimeRemaining.value != 0
    ensures r.Remaining? ==> ReadTime(r.text) == s.estimatedTimeRemaining
  {
    match s.estimatedTimeRemaining
    case None => NoLine
    case Some(t) =>
      if t == 0 then StrayZero
      else
        FormatTimeRoundTrip(t);
        Remaining(FormatTime(t))
  }

  /** The component's state plus what it has done to the outside world.
      `streams` records every stream the tracker opened, true while open;
      stream 0 is the one the effect opened, and the only one with message,
      error and open handlers attached. `eventSource` is the handle kept in
      component state. */
  class Tracker {
    const sessionId: string
    var session: Option<Session>
    var isConnected: bool
    var eventSource: Option<nat>
    var streams: seq<bool>
    var pendingReconnects: nat
    var notices: seq<Notice>
    var mounted: bool

    /** Events reach the handlers only while the effect's stream is open. */
    predicate Listening()
      reads this
    {
      |streams| > 0 && streams[0]
    }

    /** Completion and failure are each reported at most once, and once
        either is reported the effect's stream is closed. While the stream
        is open its handle is held and nothing was cancelled, and nothing but
        further cancellations follows a cancellation. */
    ghost predicate Valid()
      reads this
    {
      && (sessionId == "" <==> streams == [])
      && (eventSource.Some? ==> eventSource.value < |streams|)
      && (pendingReconnects > 0 ==> streams != [])
      && (Listening() ==> mounted && eventSource == Some(0))
      && (Listening() ==> Count(notices, CompletedKind) == 0 && Count(notices, FailedKind) == 0)
      && (Listening() ==> Count(notices, CancelledKind) == 0)
      && Count(notices, CompletedKind) <= 1
      && Count(notices, FailedKind) <= 1
      && NothingAfterCancel(notices)
    }

    /** Mounting with a session id: the effect opens one stream, unless the
        id is empty. */
    constructor (sessionId: string)
      ensures Valid() && this.sessionId == sessionId
      ensures session == None && !isConnected && notices == [] && pendingReconnects == 0 && mounted
      ensures sessionId == "" ==> streams == [] && eventSource == None
      ensures sessionId != "" ==> streams == [true] && eventSource == Some(0)
    {
      this.sessionId := sessionId;
      session := None;
      isConnected := false;
      notices := [];
      pendingReconnects := 0;
      mounted := true;
      if sessionId == "" {
        streams := [];
        eventSource := None;
      } else {
        streams := [true];
        eventSource := Some(0);
      }
    }

    /** `onopen`. */
    method OnOpen()
      requires Valid() && Listening()
      modifies this`isConnected
      ensures Valid() && isConnected
    {
      isConnected := true;
    }

    /** `onmessage`: replaces the snapshot, fires the callbacks and closes
        the stream as Dispatch says; an ignored payload changes nothing. */
    method OnMessage(p: Payload)
      requires Valid() && Listening()
      modifies this`session, this`notices, this`streams
      ensures Valid()
      ensures Dispatch(p).Ignore? ==>
        session == old(session) && notices == old(notices) && streams == old(streams)
      ensures Dispatch(p).Apply? ==>
        && session == Dispatch(p).session
        && notices == old(notices) + Dispatch(p).notices
        && streams == if Dispatch(p).close then old(streams)[0 := false] else old(streams)
    {
      if p.Malformed? {
        return;
      }
      if CarriesSnapshot(p.kind) {
        if p.session.None? {
          session := None;
        } else {
          ApplySnapshot(p.session.value);
        }
      }
    }

    /** The snapshot branch of `onmessage`: the snapshot is stored, then
        completion and failure are reported, in that order, as the snapshot
        says; either one closes the stream. */
    method ApplySnapshot(s: Session)
      requires Valid() && Listening()
      modifies this`session, this`notices, this`streams
      ensures Valid()
      ensures session == Some(s)
      ensures notices == old(notices) + SnapshotNotices(s)
      ensures streams == if SnapshotNotices(s) != [] then old(streams)[0 := false] else old(streams)
    {
      CallbacksFireOnce(notices, s);
      NoCancelAppended(notices, SnapshotNotices(s));
      session := Some(s);
      var fired: seq<Notice> := [];
      var close := false;
      if s.completed && s.result.Some? {
        fired := [Completed(s.result.value)];
        close := true;
      }
      if Truthy(s.error) {
        fired := fired + [Failed(s.error.value)];
        close := true;
      }
      assert fired == SnapshotNotices(s);
      notices := notices + fired;
      if close {
        streams := streams[0 := false];
      }
    }

    /** `onerror`: marks the tracker disconnected and schedules one
        reconnect check. `browserClosed` says whether the browser gave the
        stream up (its ready state is now CLOSED). */
    method OnTransportError(browserClosed: bool)
      requires Valid() && Listening()
      modifies this`isConnected, this`streams, this`pendingReconnects
      ensures Valid() && !isConnected
      ensures pendingReconnects == old(pendingReconnects) + 1
      ensures streams == if browserClosed then old(streams)[0 := false] else old(streams)
    {
      isConnected := false;
      if browserClosed {
        streams := streams[0 := false];
      }
      pendingReconnects := pendingReconnects + 1;
    }

    /** The 3-second timer set by `onerror`: if the effect's stream is
        closed, a replacement stream is opened with no handlers and its handle
        stored (the store is lost once unmounted). Session, connection flag and
        callbacks are untouched. */
    method ReconnectTimerFires()
      requires Valid() && pendingReconnects > 0
      modifies this`pendingReconnects, this`streams, this`eventSource
      ensures Valid()
      ensures pendingReconnects == old(pendingReconnects) - 1
      ensures old(streams)[0] ==> streams == old(streams) && eventSource == old(eventSource)
      ensures !old(streams)[0] ==> streams == old(streams) + [true]
      ensures !old(streams)[0] ==>
        eventSource == if mounted then Some(|old(streams)|) else old(eventSource)
    {
      pendingReconnects := pendingReconnects - 1;
      if !streams[0] {
        var replacement := |streams|;
        streams := streams + [true];
        if mounted {
          eventSource := Some(replacement);
        }
      }
    }

    /** The effect's cleanup on unmount: closes the stream the effect opened
        (not a replacement) and clears the handle and the connection flag. No
        cleanup exists when the session id was empty. Pending timers are not
        cancelled. */
    method Unmount()
      requires Valid() && mounted
      modifies this`streams, this`eventSource, this`isConnected, this`mounted
      ensures Valid() && !mounted
      ensures sessionId == "" ==>
        streams == old(streams) && eventSource == old(eventSource) && isConnected == old(isConnected)
      ensures sessionId != "" ==>
        streams == old(streams)[0 := false] && eventSource == None && !isConnected
    {
      if sessionId != "" {
        streams := streams[0 := false];
        eventSource := None;
        isConnected := false;
      }
      mounted := false;
    }

    /** `handleCancel`, reachable only through the Cancel button: closes and
        forgets the stream whose handle is held, if any, and tells the caller
        once per click. Afterwards no message can arrive. */
    method Cancel()
      requires Valid() && mounted && CancelVisible()
      modifies this`streams, this`eventSource, this`notices
      ensures Valid()
      ensures notices == old(notices) + [Cancelled]
      ensures old(eventSource).Some? ==>
        streams == old(streams)[old(eventSource).value := false] && eventSource == None
      ensures old(eventSource).None? ==> streams == old(streams) && eventSource == None
      ensures !Listening()
    {
      if eventSource.Some? {
        streams := streams[eventSource.value := false];
        eventSource := None;
      }
      notices := notices + [Cancelled];
      CountAppend(old(notices), [Cancelled], CompletedKind);
      CountAppend(old(notices), [Cancelled], FailedKind);
      CancelAppended(old(notices));
    }

    /** The Cancel button is shown only while a snapshot is held that is
        neither completed nor failed, so none of its callbacks fired. */
    predicate CancelVisible()
      reads this
      ensures CancelVisible() ==> session.Some? && SnapshotNotices(session.value) == []
    {
      session.Some? && ShowCancel(session.value)
    }
  }
}
