/**
  RoomScanHostView (Sources/Services/RoomScanHostView.swift): the bridge to the
  capture session. Its Coordinator starts the session when the capture view is
  attached, stops it when the binding says scanning is over, and turns the
  session's end into exactly one call of onCompleted or onError, guarded by
  hasDeliveredResult so that the first result wins.

  The capture session and the room builder are outside the model: whether the
  device is supported, the error the session ends with and the result of
  building the room are parameters, and the calls sent to the session are
  recorded in a log.
 */
module RoomScanHostView {
  import opened Wrappers
  import opened Room

  /**
    The errors reaching onError: the two cases of RoomScanError, the error the
    session ended with, and the error the room builder threw (each of the last
    two carried by its description).
   */
  datatype ScanError =
    | UnsupportedDevice
    | InternalFailure
    | CaptureFailed(description: string)
    | BuildFailed(description: string)

  /** A call of one of the two closures the view was made with. */
  datatype Callback = Completed(room: CapturedRoom) | Errored(error: ScanError)

  /** What the coordinator sends to the capture session. */
  datatype SessionCall = Run(coachingEnabled: bool) | Stop

  /** A callback that reports the end of the session rather than a failure to start it. */
  predicate IsSessionResult(c: Callback) {
    c.Completed? || c.error.CaptureFailed? || c.error.BuildFailed?
  }

  /** The number of session results in a log of callbacks. */
  function ResultCount(cs: seq<Callback>): nat {
    if cs == [] then 0
    else ResultCount(cs[..|cs| - 1]) + (if IsSessionResult(cs[|cs| - 1]) then 1 else 0)
  }

  lemma ResultCountAppend(cs: seq<Callback>, c: Callback)
    ensures ResultCount(cs + [c]) == ResultCount(cs) + (if IsSessionResult(c) then 1 else 0)
  {
    assert (cs + [c])[..|cs + [c]| - 1] == cs;
  }

  /** A log holding a session result counts at least one. */
  lemma {:induction false} OneResultCountsOne(cs: seq<Callback>, i: nat)
    requires i < |cs| && IsSessionResult(cs[i])
    ensures ResultCount(cs) >= 1
    decreases |cs|
  {
    var n := |cs| - 1;
    if i < n {
      OneResultCountsOne(cs[..n], i);
    }
  }

  /** A log holding two session results counts at least two. */
  lemma {:induction false} TwoResultsCountTwo(cs: seq<Callback>, i: nat, j: nat)
    requires i < j < |cs| && IsSessionResult(cs[i]) && IsSessionResult(cs[j])
    ensures ResultCount(cs) >= 2
    decreases |cs|
  {
    var n := |cs| - 1;
    if j == n {
      OneResultCountsOne(cs[..n], i);
    } else {
      TwoResultsCountTwo(cs[..n], i, j);
    }
  }

  /**
    First result wins: in a log counting at most one session result, no
    session result follows another, so at most one onCompleted is ever made.
   */
  lemma AtMostOneSessionResult(cs: seq<Callback>)
    requires ResultCount(cs) <= 1
    ensures forall i, j :: 0 <= i < j < |cs| && IsSessionResult(cs[i]) ==> !IsSessionResult(cs[j])
    ensures forall i, j :: 0 <= i < j < |cs| && cs[i].Completed? ==> !cs[j].Completed?
  {
    forall i, j | 0 <= i < j < |cs| && IsSessionResult(cs[i])
      ensures !IsSessionResult(cs[j])
    {
      if IsSessionResult(cs[j]) {
        TwoResultsCountTwo(cs, i, j);
      }
    }
  }

  /**
    The callback made for the session's end: the session's error if there is
    one, else the built room or the builder's error.
   */
  function Outcome(error: Option<string>, build: Result<CapturedRoom, string>): (c: Callback)
    ensures IsSessionResult(c)
    ensures c.Completed? <==> error.None? && build.Success?
    ensures c.Completed? ==> c.room == build.value
    ensures error.Some? ==> c == Errored(CaptureFailed(error.value))
    ensures error.None? && build.Failure? ==> c == Errored(BuildFailed(build.error))
  {
    match error
    case Some(e) => Errored(CaptureFailed(e))
    case None =>
      match build
      case Success(room) => Completed(room)
      case Failure(e) => Errored(BuildFailed(e))
  }

  /**
    The Coordinator. isScanning is the view's binding; captureViewAttached
    stands for the weak captureView being set; callbacks logs the calls of
    onCompleted and onError, sessionCalls what was sent to the session.
   */
  class Coordinator {
    var isScanning: bool
    var captureViewAttached: bool
    var isSessionDelegate: bool
    var hasDeliveredResult: bool
    var hasStarted: bool
    var callbacks: seq<Callback>
    var sessionCalls: seq<SessionCall>

    /** The session's end was reported exactly when one session result was delivered. */
    predicate Valid()
      reads this
    {
      ResultCount(callbacks) == (if hasDeliveredResult then 1 else 0)
    }

    /** init: nothing attached, started or delivered yet. */
    constructor (isScanning: bool)
      ensures Valid()
      ensures this.isScanning == isScanning
      ensures !captureViewAttached && !isSessionDelegate && !hasDeliveredResult && !hasStarted
      ensures callbacks == [] && sessionCalls == []
    {
      this.isScanning := isScanning;
      captureViewAttached := false;
      isSessionDelegate := false;
      hasDeliveredResult := false;
      hasStarted := false;
      callbacks := [];
      sessionCalls := [];
    }

    /**
      startSession: an unsupported device reports unsupportedDevice, a missing
      capture view reports internalFailure, and neither starts anything;
      otherwise the session runs with coaching on and both flags are set.
     */
    method StartSession(isSupported: bool)
      requires Valid()
      modifies this
      ensures Valid()
      ensures hasDeliveredResult == old(hasDeliveredResult)
      ensures captureViewAttached == old(captureViewAttached) && isSessionDelegate == old(isSessionDelegate)
      ensures !isSupported ==>
                callbacks == old(callbacks) + [Errored(UnsupportedDevice)]
                && isScanning == old(isScanning) && hasStarted == old(hasStarted) && sessionCalls == old(sessionCalls)
      ensures isSupported && !old(captureViewAttached) ==>
                callbacks == old(callbacks) + [Errored(InternalFailure)]
                && isScanning == old(isScanning) && hasStarted == old(hasStarted) && sessionCalls == old(sessionCalls)
      ensures isSupported && old(captureViewAttached) ==>
                callbacks == old(callbacks) && sessionCalls == old(sessionCalls) + [Run(true)]
                && hasStarted && isScanning
    {
      if !isSupported {
        ResultCountAppend(callbacks, Errored(UnsupportedDevice));
        callbacks := callbacks + [Errored(UnsupportedDevice)];
        return;
      }
      if !captureViewAttached {
        ResultCountAppend(callbacks, Errored(InternalFailure));
        callbacks := callbacks + [Errored(InternalFailure)];
        return;
      }
      sessionCalls := sessionCalls + [Run(true)];
      hasStarted := true;
      isScanning := true;
    }

    /** attach(to:): keep the view, become the session's delegate, start the session. */
    method Attach(isSupported: bool)
      requires Valid()
      modifies this
      ensures Valid()
      ensures captureViewAttached && isSessionDelegate
      ensures hasDeliveredResult == old(hasDeliveredResult)
      ensures !isSupported ==>
                callbacks == old(callbacks) + [Errored(UnsupportedDevice)]
                && isScanning == old(isScanning) && hasStarted == old(hasStarted) && sessionCalls == old(sessionCalls)
      ensures isSupported ==>
                callbacks == old(callbacks) && sessionCalls == old(sessionCalls) + [Run(true)]
                && hasStarted && isScanning
    {
      captureViewAttached := true;
      isSessionDelegate := true;
      StartSession(isSupported);
    }

    /** stopSession: stop the session if the view is still there; scanning is over either way. */
    method StopSession()
      requires Valid()
      modifies this
      ensures Valid()
      ensures !isScanning
      ensures sessionCalls == old(sessionCalls) + (if captureViewAttached then [Stop] else [])
      ensures callbacks == old(callbacks) && hasDeliveredResult == old(hasDeliveredResult)
      ensures hasStarted == old(hasStarted)
      ensures captureViewAttached == old(captureViewAttached) && isSessionDelegate == old(isSessionDelegate)
    {
      if captureViewAttached {
        sessionCalls := sessionCalls + [Stop];
      }
      isScanning := false;
    }

    /**
      updateUIView: whenever the binding says scanning is off, stop again.
      Only the session log grows; every flag is left as it was.
     */
    method UpdateUIView()
      requires Valid()
      modifies this
      ensures Valid()
      ensures isScanning == old(isScanning)
      ensures sessionCalls == old(sessionCalls) + (if !old(isScanning) && captureViewAttached then [Stop] else [])
      ensures callbacks == old(callbacks) && hasDeliveredResult == old(hasDeliveredResult)
      ensures hasStarted == old(hasStarted)
      ensures captureViewAttached == old(captureViewAttached) && isSessionDelegate == old(isSessionDelegate)
    {
      if !isScanning {
        StopSession();
      }
    }

    /**
      captureSession(_:didEndWith:error:): the first call marks the result
      delivered, ends scanning and makes exactly one callback, the Outcome of
      the session's error and the builder's result; every later call does
      nothing.
     */
    method DidEndWith(error: Option<string>, build: Result<CapturedRoom, string>)
      requires Valid()
      modifies this
      ensures Valid()
      ensures old(hasDeliveredResult) ==>
                isScanning == old(isScanning) && callbacks == old(callbacks) && hasDeliveredResult
      ensures !old(hasDeliveredResult) ==>
                hasDeliveredResult && !isScanning && callbacks == old(callbacks) + [Outcome(error, build)]
      ensures sessionCalls == old(sessionCalls) && hasStarted == old(hasStarted)
      ensures captureViewAttached == old(captureViewAttached) && isSessionDelegate == old(isSessionDelegate)
    {
      if hasDeliveredResult {
        return;
      }
      hasDeliveredResult := true;
      isScanning := false;

      if error.Some? {
        ResultCountAppend(callbacks, Errored(CaptureFailed(error.value)));
        callbacks := callbacks + [Errored(CaptureFailed(error.value))];
        return;
      }

      match build {
        case Success(room) =>
          ResultCountAppend(callbacks, Completed(room));
          callbacks := callbacks + [Completed(room)];
        case Failure(e) =>
          ResultCountAppend(callbacks, Errored(BuildFailed(e)));
          callbacks := callbacks + [Errored(BuildFailed(e))];
      }
    }
  }

  /**
    Across any sequence of coordinator calls that keeps Valid, onCompleted is
    made at most once and no session result follows another.
   */
  lemma CoordinatorDeliversAtMostOnce(c: Coordinator)
    requires c.Valid()
    ensures ResultCount(c.callbacks) <= 1
    ensures forall i, j :: 0 <= i < j < |c.callbacks| && c.callbacks[i].Completed? ==> !c.callbacks[j].Completed?
  {
    AtMostOneSessionResult(c.callbacks);
  }
}
