/** The desktop-duplication capture sink (src/sinks/dda.rs): `start` duplicates
    the output and spawns a worker that, until the stop event is seen, acquires
    a frame (100 ms timeout), counts it and releases it; `stop` signals the
    event, joins the worker and returns the frame counter. As written, any
    acquire failure ends the worker, the 100 ms timeout of an idle screen
    included (`TimeoutEndsCapture`); `WorkerStepRetrying` is the iteration
    that takes a timeout as "no frame yet" (`RetryingSurvivesTimeouts`).

    The worker runs beside the sink. Its loop iterations are modelled as atomic
    steps (`WorkerStep`) that the environment interleaves with `Start` and
    `Stop`; an iteration that straddles the signal is the same as one taken
    just before it, since the signal is only read at the top of the loop. */
module DdaSink {
  import opened Win
  import opened Events

  /** `DXGI_ERROR_WAIT_TIMEOUT`: no new frame within the acquire timeout. */
  const DXGI_ERROR_WAIT_TIMEOUT: int := 0x887A_0027
  const ACQUIRE_TIMEOUT_MS: u32 := 100

  // ---------------------------------------------------------------------------
  // Specification: the sink's state and its operations.

  datatype WorkerState = Running | Exited(result: Result<()>)

  /** `duplicated`: `duplication.is_some()`; `worker`: the joinable capture
      thread; `frames`: the shared counter; `signaled`: the stop event. */
  datatype SinkState = SinkState(duplicated: bool, worker: Option<WorkerState>, frames: nat, signaled: bool)

  datatype AcquireOutcome = Frame | AcquireFailed(code: int)

  /** What one worker iteration meets: the stop-event check, the acquire, the release. */
  datatype IterEnv = IterEnv(check: WaitEnv, acquire: AcquireOutcome, release: Status)

  datatype StartEnv = StartEnv(check: WaitEnv, duplicate: Status, cloneEvent: Status)

  /** What `stop` meets: `SetEvent`, and the worker's last stop-event check
      should it still be running when joined. */
  datatype StopEnv = StopEnv(signalFails: bool, signalError: u32, finalCheck: WaitEnv)

  /** A freshly constructed sink. */
  function Fresh(): SinkState {
    SinkState(false, None, 0, false)
  }

  /** A worker handle implies a duplication. */
  predicate Inv(s: SinkState) {
    s.worker.Some? ==> s.duplicated
  }

  /** A duplication with no worker to join: nothing will ever clear it. */
  predicate Wedged(s: SinkState) {
    s.duplicated && s.worker.None?
  }

  /** One iteration of the worker loop: check the event (an auto-reset
      event, so a true check consumes the signal), acquire with a 100 ms
      timeout and `?` (any failure, a timeout included, ends the worker),
      count the frame, release with `?`. Only the worker's own fields move:
      it never sets the event, never touches the duplication, and counts at
      most one frame. */
  function WorkerStep(s: SinkState, e: IterEnv): (s': SinkState)
    ensures s'.duplicated == s.duplicated && (s'.signaled ==> s.signaled)
    ensures s'.frames == s.frames || s'.frames == s.frames + 1
    ensures s.worker != Some(Running) ==> s' == s
    ensures s'.worker.Some? <==> s.worker.Some?
  {
    if s.worker != Some(Running) then s
    else if e.check.fails then s.(worker := Some(Exited(Err(HResultFromWin32(e.check.lastError)))))
    else if s.signaled then s.(signaled := false, worker := Some(Exited(Ok(()))))
    else match e.acquire
      case AcquireFailed(code) => s.(worker := Some(Exited(Err(code))))
      case Frame =>
        var counted := s.(frames := s.frames + 1);
        if e.release != S_OK then counted.(worker := Some(Exited(Err(e.release)))) else counted
  }

  /** `start`: a no-op when a duplication exists or the stop event is found
      set (the check consumes that signal); otherwise duplicate the output,
      clone the event for the worker (a failed clone panics) and spawn it. */
  function StartStep(s: SinkState, e: StartEnv): (res: (SinkState, Result<()>))
    ensures res.0.frames == s.frames && (Inv(s) ==> Inv(res.0))
    ensures s.duplicated ==> res == (s, Ok(()))
    ensures res.0.worker != s.worker ==>
      !s.duplicated && res.0.duplicated && res.0.worker == Some(Running) && res.1 == Ok(())
  {
    if s.duplicated then (s, Ok(()))
    else if e.check.fails then (s, Err(HResultFromWin32(e.check.lastError)))
    else if s.signaled then (s.(signaled := false), Ok(()))
    else if e.duplicate != S_OK then (s, Err(e.duplicate))
    else if e.cloneEvent != S_OK then (s, Panic)
    else (s.(duplicated := true, worker := Some(Running)), Ok(()))
  }

  /** `thread.join()` on a worker, the stop event having just been set. */
  function JoinWorker(w: WorkerState, s: SinkState, finalCheck: WaitEnv): (res: (SinkState, Result<()>))
    ensures res.0.frames == s.frames && res.0.duplicated == s.duplicated && res.0.worker == s.worker
    ensures w.Exited? ==> res == (s, w.result)
    ensures w.Running? ==> !res.1.Panic? && (res.1.Ok? <==> !finalCheck.fails)
  {
    match w
    case Exited(res) => (s, res)
    case Running =>
      if finalCheck.fails then (s, Err(HResultFromWin32(finalCheck.lastError))) else (s.(signaled := false), Ok(()))
  }

  /** `stop`: with no worker, 0. Otherwise take the handle, signal (on failure
      the worker is left detached), join (its error is returned), drop the
      duplication and return the counter. */
  function StopStep(s: SinkState, e: StopEnv): (res: (SinkState, Result<nat>))
    ensures res.0.worker.None? && res.0.frames == s.frames
    ensures s.worker.None? ==> res == (s, Ok(0))
    ensures s.worker.Some? && res.1.Ok? ==> res.1.value == s.frames && !res.0.duplicated
    ensures !res.1.Ok? ==> res.0.duplicated == s.duplicated
    ensures s.worker.Some? && e.signalFails ==> res.1 == Err(HResultFromWin32(e.signalError))
    ensures (s.worker.Some? && s.worker.value.Exited? && s.worker.value.result.Err? && !e.signalFails
             ==> res.1 == Err(s.worker.value.result.code))
  {
    if s.worker.None? then (s, Ok(0))
    else
      var taken := s.(worker := None);
      if e.signalFails then (taken, Err(HResultFromWin32(e.signalError)))
      else
        var joined := JoinWorker(s.worker.value, taken.(signaled := true), e.finalCheck);
        if !joined.1.Ok? then (joined.0, joined.1.PropagateFailure())
        else (joined.0.(duplicated := false), Ok(joined.0.frames))
  }

  datatype SinkOp = StartOp(startEnv: StartEnv) | StopOp(stopEnv: StopEnv) | WorkerOp(iterEnv: IterEnv)

  function Apply(s: SinkState, op: SinkOp): SinkState {
    match op
    case StartOp(e) => StartStep(s, e).0
    case StopOp(e) => StopStep(s, e).0
    case WorkerOp(e) => WorkerStep(s, e)
  }

  function ApplyAll(s: SinkState, ops: seq<SinkOp>): SinkState
    decreases |ops|
  {
    if ops == [] then s else ApplyAll(Apply(s, ops[0]), ops[1..])
  }

  // ---------------------------------------------------------------------------
  // Properties.

  /** A worker iteration counts at most one frame, and one exactly when the
      worker runs, the check succeeds without seeing the signal and a frame
      is acquired; the release status does not matter to the count. */
  lemma WorkerCountsOneFramePerAcquire(s: SinkState, e: IterEnv)
    ensures var s' := WorkerStep(s, e);
      s'.frames == s.frames + 1 <==> s.worker == Some(Running) && !e.check.fails && !s.signaled && e.acquire.Frame?
    ensures var s' := WorkerStep(s, e); s'.frames == s.frames || s'.frames == s.frames + 1
  {
  }

  /** The worker ends with `Ok` only by seeing the stop signal, which it consumes. */
  lemma WorkerOkOnlyOnSignal(s: SinkState, e: IterEnv)
    requires s.worker == Some(Running)
    ensures WorkerStep(s, e).worker == Some(Exited(Ok(()))) <==> !e.check.fails && s.signaled
    ensures WorkerStep(s, e).worker == Some(Exited(Ok(()))) ==> !WorkerStep(s, e).signaled
  {
  }

  /** Past the check, an iteration ends the worker with the acquire's error,
      whatever it is, or counts the frame and ends it with a failed release's
      error; only a clean acquire and release keep it running. */
  lemma WorkerFailureEndsIt(s: SinkState, e: IterEnv)
    requires s.worker == Some(Running) && !e.check.fails && !s.signaled
    ensures e.acquire.AcquireFailed? ==> WorkerStep(s, e) == s.(worker := Some(Exited(Err(e.acquire.code))))
    ensures (e.acquire.Frame? && e.release != S_OK
             ==> WorkerStep(s, e) == s.(frames := s.frames + 1, worker := Some(Exited(Err(e.release)))))
    ensures e.acquire.Frame? && e.release == S_OK ==> WorkerStep(s, e) == s.(frames := s.frames + 1)
  {
  }

  /** A worker that ended with an error hands that error to `stop`, which
      returns it and leaves the sink wedged. */
  lemma WorkerErrorReachesStop(s: SinkState, e: IterEnv, te: StopEnv)
    requires s.worker == Some(Running) && s.duplicated && !e.check.fails && !s.signaled
    requires !te.signalFails
    requires e.acquire.AcquireFailed? || e.release != S_OK
    ensures var code := if e.acquire.AcquireFailed? then e.acquire.code else e.release;
      var (s2, r) := StopStep(WorkerStep(s, e), te);
      r == Err(code) && Wedged(s2)
  {
  }

  /** Every operation keeps `Inv`, and none lowers the counter. */
  lemma {:induction false} OpsKeepInvAndCounter(s: SinkState, ops: seq<SinkOp>)
    requires Inv(s)
    ensures Inv(ApplyAll(s, ops)) && ApplyAll(s, ops).frames >= s.frames
    decreases |ops|
  {
    if ops != [] {
      var s' := Apply(s, ops[0]);
      assert Inv(s') && s'.frames >= s.frames;
      OpsKeepInvAndCounter(s', ops[1..]);
    }
  }

  /** `stop` always takes the worker handle, so a second `stop` returns 0
      and changes nothing. */
  lemma StopTwiceReturnsZero(s: SinkState, e1: StopEnv, e2: StopEnv)
    ensures var (s1, _) := StopStep(s, e1);
      s1.worker.None? && StopStep(s1, e2) == (s1, Ok(0))
  {
  }

  /** A failed `stop` leaves the duplication behind with nothing to join. */
  lemma StopErrorWedges(s: SinkState, e: StopEnv)
    requires Inv(s)
    ensures !StopStep(s, e).1.Ok? ==> s.worker.Some? && Wedged(StopStep(s, e).0)
  {
  }

  /** Once wedged, a sink stays wedged whatever happens: every `start` is a
      no-op that reports success and every `stop` returns 0. */
  lemma {:induction false} WedgedForever(s: SinkState, ops: seq<SinkOp>, se: StartEnv, te: StopEnv)
    requires Wedged(s)
    ensures var s' := ApplyAll(s, ops);
      Wedged(s') && StartStep(s', se) == (s', Ok(())) && StopStep(s', te) == (s', Ok(0))
    decreases |ops|
  {
    if ops != [] {
      var s' := Apply(s, ops[0]);
      assert Wedged(s');
      WedgedForever(s', ops[1..], se, te);
    }
  }

  /** A stop signal left over from earlier (the event set, nothing running)
      would make exactly one `start` a no-op: its check consumes the signal,
      and the next `start` proceeds. `StartNeverSeesStaleSignal` shows that
      no sequence of operations on a fresh sink reaches this state. */
  lemma StaleSignalSkipsOneStart(frames: nat, e1: StartEnv, e2: StartEnv)
    requires !e1.check.fails
    requires !e2.check.fails && e2.duplicate == S_OK && e2.cloneEvent == S_OK
    ensures var s := SinkState(false, None, frames, true);
      var (s1, r1) := StartStep(s, e1);
      r1 == Ok(()) && s1.worker.None? && StartStep(s1, e2).0.worker == Some(Running)
  {
  }

  /** What holds of every state a fresh sink reaches: a worker implies a
      duplication, the event is set only while a duplication stays behind
      with no worker, and no worker ever ends with `Ok` unseen by `stop`. */
  predicate Reachable(s: SinkState) {
    Inv(s) && (!s.duplicated ==> !s.signaled) && (s.worker.Some? ==> !s.signaled)
    && !(s.worker.Some? && s.worker.value.Exited? && s.worker.value.result.Ok?)
  }

  lemma {:induction false} ReachableKept(s: SinkState, ops: seq<SinkOp>)
    requires Reachable(s)
    ensures Reachable(ApplyAll(s, ops))
    decreases |ops|
  {
    if ops != [] {
      match ops[0] {
        case StartOp(e) => assert Reachable(StartStep(s, e).0);
        case WorkerOp(e) => assert Reachable(WorkerStep(s, e));
        case StopOp(e) => assert Reachable(StopStep(s, e).0);
      }
      ReachableKept(Apply(s, ops[0]), ops[1..]);
    }
  }

  /** On any sink built from a fresh one, `start`'s `is_signaled()` guard
      never answers true: whenever `start` gets past the duplication check,
      the event is not set. */
  lemma StartNeverSeesStaleSignal(ops: seq<SinkOp>)
    ensures var s := ApplyAll(Fresh(), ops); !s.duplicated ==> !s.signaled
  {
    ReachableKept(Fresh(), ops);
  }

  /** An iteration that acquires and releases a frame without trouble. */
  predicate GoodIter(e: IterEnv) {
    !e.check.fails && e.acquire.Frame? && e.release == S_OK
  }

  function Workers(its: seq<IterEnv>): (ops: seq<SinkOp>)
    ensures |ops| == |its| && forall i :: 0 <= i < |its| ==> ops[i] == WorkerOp(its[i])
  {
    if its == [] then [] else [WorkerOp(its[0])] + Workers(its[1..])
  }

  lemma {:induction false} GoodItersCount(s: SinkState, its: seq<IterEnv>)
    requires s.worker == Some(Running) && !s.signaled
    requires forall i :: 0 <= i < |its| ==> GoodIter(its[i])
    ensures ApplyAll(s, Workers(its)) == s.(frames := s.frames + |its|)
    decreases |its|
  {
    if its != [] {
      assert GoodIter(its[0]);
      assert Workers(its)[1..] == Workers(its[1..]);
      GoodItersCount(WorkerStep(s, its[0]), its[1..]);
    }
  }

  /** One capture interval: from an idle sink, a successful `start`, any
      number of clean worker iterations and a clean `stop` return the
      counter, which has grown by exactly the frames acquired (it is never
      reset, so it counts every interval so far), and leave the sink idle
      again. */
  lemma CaptureIntervalCountsFrames(s: SinkState, se: StartEnv, its: seq<IterEnv>, te: StopEnv)
    requires !s.duplicated && s.worker.None? && !s.signaled
    requires !se.check.fails && se.duplicate == S_OK && se.cloneEvent == S_OK
    requires forall i :: 0 <= i < |its| ==> GoodIter(its[i])
    requires !te.signalFails && !te.finalCheck.fails
    ensures var started := StartStep(s, se);
      var captured := ApplyAll(started.0, Workers(its));
      var stopped := StopStep(captured, te);
      started.1 == Ok(()) && stopped.1 == Ok(s.frames + |its|)
      && stopped.0 == SinkState(false, None, s.frames + |its|, false)
  {
    var started := StartStep(s, se).0;
    assert started == s.(duplicated := true, worker := Some(Running));
    GoodItersCount(started, its);
    var captured := ApplyAll(started, Workers(its));
    assert captured == started.(frames := s.frames + |its|);
    var joined := JoinWorker(Running, captured.(worker := None, signaled := true), te.finalCheck);
    assert joined == (captured.(worker := None, signaled := false), Ok(()));
  }

  // ---------------------------------------------------------------------------
  // The timeout: as written versus as intended.

  /** One iteration as evidently intended: a timeout means no new frame yet
      and leads back to the check; any other acquire failure ends the worker.
      Like `WorkerStep`, it moves only the worker's own fields. */
  function WorkerStepRetrying(s: SinkState, e: IterEnv): (s': SinkState)
    ensures s'.duplicated == s.duplicated && (s'.signaled ==> s.signaled)
    ensures s'.frames == s.frames || s'.frames == s.frames + 1
    ensures s.worker != Some(Running) ==> s' == s
    ensures e.acquire == AcquireFailed(DXGI_ERROR_WAIT_TIMEOUT) && !e.check.fails && !s.signaled ==> s' == s
  {
    if s.worker != Some(Running) then s
    else if e.check.fails then s.(worker := Some(Exited(Err(HResultFromWin32(e.check.lastError)))))
    else if s.signaled then s.(signaled := false, worker := Some(Exited(Ok(()))))
    else match e.acquire
      case AcquireFailed(code) =>
        if code == DXGI_ERROR_WAIT_TIMEOUT then s else s.(worker := Some(Exited(Err(code))))
      case Frame =>
        var counted := s.(frames := s.frames + 1);
        if e.release != S_OK then counted.(worker := Some(Exited(Err(e.release)))) else counted
  }

  /** The two iterations differ exactly on a timeout met by a running worker
      that saw no signal. */
  lemma RetryingDiffersOnlyOnTimeout(s: SinkState, e: IterEnv)
    ensures WorkerStep(s, e) != WorkerStepRetrying(s, e) <==>
      s.worker == Some(Running) && !e.check.fails && !s.signaled && e.acquire == AcquireFailed(DXGI_ERROR_WAIT_TIMEOUT)
  {
  }

  /** As written, one acquire timeout (an idle screen for 100 ms) ends the
      worker with an error, which the next `stop` returns, after which the
      sink is wedged. */
  lemma TimeoutEndsCapture(s: SinkState, check: WaitEnv, te: StopEnv)
    requires s.worker == Some(Running) && s.duplicated && !s.signaled && !check.fails
    requires !te.signalFails
    ensures var s1 := WorkerStep(s, IterEnv(check, AcquireFailed(DXGI_ERROR_WAIT_TIMEOUT), S_OK));
      var (s2, r) := StopStep(s1, te);
      r == Err(DXGI_ERROR_WAIT_TIMEOUT) && Wedged(s2)
  {
  }

  /** An iteration without check, acquire or release failures, timeouts allowed. */
  predicate QuietIter(e: IterEnv) {
    !e.check.fails && e.release == S_OK && (e.acquire.Frame? || e.acquire == AcquireFailed(DXGI_ERROR_WAIT_TIMEOUT))
  }

  /** The number of iterations that acquired a frame. */
  function FramesIn(its: seq<IterEnv>): nat {
    if its == [] then 0 else (if its[0].acquire.Frame? then 1 else 0) + FramesIn(its[1..])
  }

  /** The worker's iterations in turn, timeouts retried. */
  function RunRetrying(s: SinkState, its: seq<IterEnv>): (s': SinkState)
    ensures s'.duplicated == s.duplicated && s'.frames >= s.frames
    decreases |its|
  {
    if its == [] then s else RunRetrying(WorkerStepRetrying(s, its[0]), its[1..])
  }

  /** With timeouts retried, quiet iterations keep the worker running and
      count exactly their frames, so the following clean `stop` succeeds and
      returns the count however long the screen was idle. */
  lemma {:induction false} RetryingSurvivesTimeouts(s: SinkState, its: seq<IterEnv>, te: StopEnv)
    requires s.worker == Some(Running) && s.duplicated && !s.signaled
    requires forall i :: 0 <= i < |its| ==> QuietIter(its[i])
    requires !te.signalFails && !te.finalCheck.fails
    ensures RunRetrying(s, its) == s.(frames := s.frames + FramesIn(its))
    ensures StopStep(RunRetrying(s, its), te).0 == s.(duplicated := false, worker := None, frames := s.frames + FramesIn(its))
    ensures StopStep(RunRetrying(s, its), te).1 == Ok(s.frames + FramesIn(its))
    decreases |its|
  {
    if its != [] {
      assert QuietIter(its[0]);
      RetryingSurvivesTimeouts(WorkerStepRetrying(s, its[0]), its[1..], te);
    }
  }

  // ---------------------------------------------------------------------------
  // The objects.

  /** The `AtomicUsize` frame counter shared by the sink and its worker. */
  class FrameCounter {
    var count: nat

    constructor ()
      ensures count == 0
    {
      count := 0;
    }
  }

  /** The capture thread: its own handle to the stop event, the shared
      counter, and where it is in its life. */
  class CaptureWorker {
    const event: Event
    const counter: FrameCounter
    var state: WorkerState

    constructor Spawn(event: Event, counter: FrameCounter)
      ensures this.event == event && this.counter == counter && state == Running
    {
      this.event, this.counter := event, counter;
      state := Running;
    }

    /** One iteration of the capture loop. */
    method Step(e: IterEnv)
      requires event.open && !event.obj.manualReset
      modifies this, event.obj, counter
      ensures var s := WorkerStep(SinkState(true, Some(old(state)), old(counter.count), old(event.obj.signaled)), e);
        Some(state) == s.worker && counter.count == s.frames && event.obj.signaled == s.signaled
    {
      if state != Running {
        return;
      }
      var stop := event.IsSignaled(e.check);
      if stop.Err? {
        state := Exited(Err(stop.code));
        return;
      }
      if stop.value {
        state := Exited(Ok(()));
        return;
      }
      match e.acquire {
        case AcquireFailed(code) =>
          state := Exited(Err(code));
        case Frame =>
          counter.count := counter.count + 1;
          if e.release != S_OK {
            state := Exited(Err(e.release));
          }
      }
    }

    /** `join`, the stop event having been set: a running worker's next check
      sees the signal, so it finishes that check and exits. */
    method Join(finalCheck: WaitEnv) returns (r: Result<()>)
      requires event.open && !event.obj.manualReset && event.obj.signaled
      modifies this, event.obj
      ensures var (s, res) := JoinWorker(old(state), SinkState(true, None, counter.count, old(event.obj.signaled)), finalCheck);
        r == res && event.obj.signaled == s.signaled && state.Exited? && state.result == r
    {
      if state.Running? {
        var stop := event.IsSignaled(finalCheck);
        if stop.Err? {
          state := Exited(Err(stop.code));
        } else {
          state := Exited(Ok(()));
        }
      }
      r := state.result;
    }
  }

  /** `DdaCaptureSink`; the D3D device and the output it duplicates are
      not modelled beyond `DuplicateOutput`'s status. */
  class DdaCaptureSink {
    var duplicated: bool
    const stopEvent: Event
    var captureThread: Option<CaptureWorker>
    const numFrames: FrameCounter

    ghost predicate Valid()
      reads this, stopEvent, stopEvent.obj, if captureThread.Some? then {captureThread.value, captureThread.value.event} else {}
    {
      stopEvent.open && !stopEvent.obj.manualReset
      && (captureThread.Some? ==>
            duplicated && captureThread.value.event.obj == stopEvent.obj && captureThread.value.event.open
            && captureThread.value.counter == numFrames)
    }

    /** The sink as the specification sees it. */
    ghost function Abs(): SinkState
      reads this, stopEvent, stopEvent.obj, numFrames, if captureThread.Some? then {captureThread.value} else {}
    {
      SinkState(duplicated, if captureThread.Some? then Some(captureThread.value.state) else None,
                numFrames.count, stopEvent.obj.signaled)
    }

    constructor Create(event: Event)
      requires event.open && !event.obj.manualReset && !event.obj.signaled
      ensures Valid() && Abs() == Fresh() && stopEvent == event && fresh(numFrames)
    {
      duplicated := false;
      stopEvent := event;
      captureThread := None;
      numFrames := new FrameCounter();
    }

    /** `start`, proved to be `StartStep`. */
    method Start(e: StartEnv) returns (r: Result<()>)
      requires Valid()
      modifies this, stopEvent.obj
      ensures Valid()
      ensures (Abs(), r) == StartStep(old(Abs()), e)
      ensures captureThread.Some? && old(captureThread).None? ==>
        fresh(captureThread.value) && fresh(captureThread.value.event)
      ensures old(captureThread).Some? ==> captureThread == old(captureThread)
    {
      if duplicated {
        return Ok(());
      }
      var stop :- stopEvent.IsSignaled(e.check);
      if stop {
        return Ok(());
      }
      if e.duplicate != S_OK {
        return Err(e.duplicate);
      }
      var event :- stopEvent.Clone(e.cloneEvent);
      var worker := new CaptureWorker.Spawn(event, numFrames);
      duplicated := true;
      captureThread := Some(worker);
      r := Ok(());
    }

    /** The running worker takes one loop iteration, proved to be `WorkerStep`. */
    method AdvanceWorker(e: IterEnv)
      requires Valid()
      modifies if captureThread.Some? then {captureThread.value} else {}, stopEvent.obj, numFrames
      ensures Valid()
      ensures Abs() == WorkerStep(old(Abs()), e)
    {
      if captureThread.Some? {
        captureThread.value.Step(e);
      }
    }

    /** The running worker takes the given loop iterations in turn. */
    method AdvanceWorkerBy(its: seq<IterEnv>)
      requires Valid()
      modifies if captureThread.Some? then {captureThread.value} else {}, stopEvent.obj, numFrames
      ensures Valid()
      ensures Abs() == ApplyAll(old(Abs()), Workers(its))
    {
      var i := 0;
      while i < |its|
        invariant 0 <= i <= |its| && Valid()
        invariant Abs() == ApplyAll(old(Abs()), Workers(its[..i]))
      {
        ApplyAllSnoc(old(Abs()), its[..i], its[i]);
        assert its[..i + 1] == its[..i] + [its[i]];
        AdvanceWorker(its[i]);
        i := i + 1;
      }
      assert its[..i] == its;
    }

    /** `stop`, proved to be `StopStep`. */
    method Stop(e: StopEnv) returns (r: Result<nat>)
      requires Valid()
      modifies this, stopEvent.obj, if captureThread.Some? then {captureThread.value} else {}
      ensures Valid()
      ensures (Abs(), r) == StopStep(old(Abs()), e)
    {
      if captureThread.None? {
        return Ok(0);
      }
      var thread := captureThread.value;
      captureThread := None;
      var signaled := stopEvent.Signal(e.signalFails, e.signalError);
      if !signaled.Ok? {
        return signaled.PropagateFailure();
      }
      var joined := thread.Join(e.finalCheck);
      if !joined.Ok? {
        return joined.PropagateFailure();
      }
      duplicated := false;
      r := Ok(numFrames.count);
    }
  }

  /** `DdaCaptureSink::new`: only creating the stop event can fail. */
  method NewSink(createStatus: Status) returns (r: Result<DdaCaptureSink>)
    ensures !r.Panic? && (r.Ok? <==> createStatus == S_OK) && (r.Err? ==> r.code == createStatus)
    ensures r.Ok? ==> fresh(r.value) && r.value.Valid() && r.value.Abs() == Fresh()
  {
    var event :- NewEvent(createStatus);
    var sink := new DdaCaptureSink.Create(event);
    r := Ok(sink);
  }

  /** Worker iterations one at a time. */
  lemma {:induction false} ApplyAllSnoc(s: SinkState, its: seq<IterEnv>, e: IterEnv)
    ensures ApplyAll(s, Workers(its + [e]))
      == WorkerStep(ApplyAll(s, Workers(its)), e)
    decreases |its|
  {
    if its == [] {
      assert Workers([e])[1..] == [];
    } else {
      assert (its + [e])[1..] == its[1..] + [e];
      assert Workers(its + [e])[1..] == Workers(its[1..] + [e]);
      assert Workers(its)[1..] == Workers(its[1..]);
      ApplyAllSnoc(Apply(s, WorkerOp(its[0])), its[1..], e);
    }
  }
}
