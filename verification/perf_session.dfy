/** The sampling session (src/perf_session.rs): a repeating 500 ms timer on the
    UI thread reads the tracker once per tick, accumulates the readings, and
    once the elapsed time reaches the target stops the timer and sends every
    reading, in tick order, as one batch to the thread that asked for it.

    The pure part (`SessionState`, `Tick`, `Run`) is the specification; the
    classes below are the mutable objects of the source and are proved to
    follow it. */
module PerfSession {
  import opened Win
  import Perf

  const TICK_LENGTH: Duration := 500 * NANOS_PER_MILLI

  // ---------------------------------------------------------------------------
  // Specification: the session's state and one tick.

  /** What a session is at any moment: its target and elapsed time, the
      readings not yet sent, whether its timer runs, and every batch sent. */
  datatype SessionState = SessionState(target: Duration, current: Duration, samples: seq<real>,
                                       running: bool, sent: seq<seq<real>>)

  /** What the outside world contributes to one tick: the tracker's reading
      and the status of `timer.Stop()` should the tick call it. */
  datatype TickOutcome = TickOutcome(reading: Result<real>, stopStatus: Status)

  /** A session as `start` leaves it: nothing elapsed, nothing read, timer running. */
  function Started(target: Duration): SessionState {
    SessionState(target, 0, [], true, [])
  }

  /** `on_tick`: `?` returns before the push when the reading fails; otherwise
      the reading is pushed, elapsed time advances by one tick, and once it
      reaches the target the timer is stopped and all readings are drained
      into one batch that is sent. A failed `Stop` returns before the drain. */
  function Tick(s: SessionState, t: TickOutcome): (res: (SessionState, Result<()>))
    ensures res.0.target == s.target && (res.1.Panic? <==> t.reading.Panic?)
    ensures res.0.sent == s.sent || (t.reading.Ok? && res.0.sent == s.sent + [s.samples + [t.reading.value]])
    ensures res.0.sent != s.sent ==> !res.0.running && res.0.samples == [] && res.1 == Ok(())
  {
    if !t.reading.Ok? then (s, t.reading.PropagateFailure())
    else
      var pushed := s.(samples := s.samples + [t.reading.value], current := s.current + TICK_LENGTH);
      if pushed.current < pushed.target then (pushed, Ok(()))
      else if t.stopStatus != S_OK then (pushed, Err(t.stopStatus))
      else (pushed.(running := false, samples := [], sent := pushed.sent + [pushed.samples]), Ok(()))
  }

  /** The ticks a session sees: the timer fires only while it runs. */
  function Run(s: SessionState, ts: seq<TickOutcome>): (r: SessionState)
    ensures r.target == s.target && s.sent <= r.sent
    ensures !s.running ==> r == s
    decreases |ts|
  {
    if ts == [] then s
    else if !s.running then Run(s, ts[1..])
    else Run(Tick(s, ts[0]).0, ts[1..])
  }

  /** The readings that succeeded, in tick order. */
  function Successes(ts: seq<TickOutcome>): seq<real>
  {
    if ts == [] then []
    else (if ts[0].reading.Ok? then [ts[0].reading.value] else []) + Successes(ts[1..])
  }

  /** The number of ticks a session of length `target` takes: the least n >= 1
      with n ticks covering the target, that is max(1, ceil(target / 500 ms)). */
  function TicksNeeded(target: Duration): (n: nat)
    ensures n >= 1 && n * TICK_LENGTH >= target
    ensures n == 1 || (n - 1) * TICK_LENGTH < target
  {
    if target <= TICK_LENGTH then 1 else (target + TICK_LENGTH - 1) / TICK_LENGTH
  }

  // ---------------------------------------------------------------------------
  // Properties of one tick.

  /** A successful tick records exactly one reading and one tick of time: the
      reading ends the buffer (or the batch it completes) and nothing else moves. */
  lemma SuccessfulTickAdvances(s: SessionState, v: real, stopStatus: Status)
    ensures var (s', r) := Tick(s, TickOutcome(Ok(v), stopStatus));
      s'.current == s.current + TICK_LENGTH && s'.target == s.target
      && (s'.sent == s.sent ==> s'.samples == s.samples + [v] && s'.running == s.running)
      && (s'.sent != s.sent ==> s'.sent == s.sent + [s.samples + [v]] && s'.samples == [] && !s'.running)
      && (r.Ok? <==> s'.current < s.target || stopStatus == S_OK)
  {
  }

  /** A failed reading changes nothing: the error is returned before the push. */
  lemma FailedTickChangesNothing(s: SessionState, t: TickOutcome)
    requires !t.reading.Ok?
    ensures Tick(s, t).0 == s && !Tick(s, t).1.Ok?
  {
  }

  /** Nothing guards against a tick after completion: one more successful tick
      on a completed session sends a second batch holding that one reading. */
  lemma TickAfterCompletionSendsAgain(s: SessionState, v: real)
    requires s.current >= s.target && s.samples == []
    ensures Tick(s, TickOutcome(Ok(v), S_OK)).0.sent == s.sent + [[v]]
  {
    assert s.samples + [v] == [v];
  }

  // ---------------------------------------------------------------------------
  // Properties of a whole session.

  lemma {:induction false} RunAppend(s: SessionState, a: seq<TickOutcome>, b: seq<TickOutcome>)
    ensures Run(s, a + b) == Run(Run(s, a), b)
    decreases |a|
  {
    if a != [] {
      assert (a + b)[1..] == a[1..] + b;
      if s.running {
        RunAppend(Tick(s, a[0]).0, a[1..], b);
      } else {
        RunAppend(s, a[1..], b);
      }
    } else {
      assert a + b == b;
    }
  }

  lemma {:induction false} RunStopped(s: SessionState, ts: seq<TickOutcome>)
    requires !s.running
    ensures Run(s, ts) == s
  {
    if ts != [] {
      RunStopped(s, ts[1..]);
    }
  }

  /** A session only sends once its timer is stopped. */
  lemma {:induction false} SentOnlyWhenStopped(s: SessionState, ts: seq<TickOutcome>)
    requires s.sent != [] ==> !s.running
    ensures Run(s, ts).sent != [] ==> !Run(s, ts).running
    decreases |ts|
  {
    if ts != [] {
      if s.running {
        SentOnlyWhenStopped(Tick(s, ts[0]).0, ts[1..]);
      } else {
        SentOnlyWhenStopped(s, ts[1..]);
      }
    }
  }

  predicate Collecting(s: SessionState, got: seq<real>) {
    s == SessionState(s.target, |got| * TICK_LENGTH, got, true, [])
  }

  predicate Benign(ts: seq<TickOutcome>) {
    forall i :: 0 <= i < |ts| ==> !ts[i].reading.Panic? && ts[i].stopStatus == S_OK
  }

  lemma {:induction false} RunCollects(s: SessionState, got: seq<real>, ts: seq<TickOutcome>)
    requires Collecting(s, got) && |got| < TicksNeeded(s.target)
    requires Benign(ts)
    requires |got| + |Successes(ts)| >= TicksNeeded(s.target)
    ensures var batch := (got + Successes(ts))[..TicksNeeded(s.target)];
      Run(s, ts) == SessionState(s.target, |batch| * TICK_LENGTH, [], false, [batch])
    decreases |ts|
  {
    var n := TicksNeeded(s.target);
    var t := ts[0];
    var rest := ts[1..];
    assert Benign(rest) by {
      forall i | 0 <= i < |rest| ensures !rest[i].reading.Panic? && rest[i].stopStatus == S_OK {
        assert rest[i] == ts[i + 1];
      }
    }
    assert t == ts[0];
    if t.reading.Ok? {
      var got' := got + [t.reading.value];
      assert Successes(ts) == [t.reading.value] + Successes(rest);
      assert got + Successes(ts) == got' + Successes(rest);
      var s' := Tick(s, t).0;
      if |got'| < n {
        assert |got'| * TICK_LENGTH < s.target;
        assert Collecting(s', got');
        RunCollects(s', got', rest);
      } else {
        assert |got'| == n;
        assert (got' + Successes(rest))[..n] == got';
        RunStopped(s', rest);
      }
    } else {
      assert Successes(ts) == Successes(rest);
      RunCollects(s, got, rest);
    }
  }

  /** Given ticks only while the timer runs, no panicking reading and no
      failing `Stop`, a session that gets enough good readings sends exactly one
      batch: the first `TicksNeeded(target)` successful readings in tick order,
      max(1, ceil(target / 500 ms)) of them; its buffer is then empty, its
      timer stopped, and elapsed time has reached the target. */
  lemma SessionSendsOneBatch(target: Duration, ts: seq<TickOutcome>)
    requires Benign(ts)
    requires |Successes(ts)| >= TicksNeeded(target)
    ensures var n := TicksNeeded(target);
      var s := Run(Started(target), ts);
      s.sent == [Successes(ts)[..n]] && |s.sent[0]| == n && s.samples == [] && !s.running
      && s.current >= target
  {
    RunCollects(Started(target), [], ts);
    assert [] + Successes(ts) == Successes(ts);
  }

  /** With fewer good readings than ticks needed nothing is sent at all. */
  lemma {:induction false} NotEnoughReadingsSendsNothing(s: SessionState, got: seq<real>, ts: seq<TickOutcome>)
    requires Collecting(s, got)
    requires Benign(ts)
    requires |got| + |Successes(ts)| < TicksNeeded(s.target)
    ensures Collecting(Run(s, ts), got + Successes(ts))
    decreases |ts|
  {
    if ts != [] {
      var rest := ts[1..];
      assert Benign(rest) by {
        forall i | 0 <= i < |rest| ensures !rest[i].reading.Panic? && rest[i].stopStatus == S_OK {
          assert rest[i] == ts[i + 1];
        }
      }
      assert !ts[0].reading.Panic?;
      if ts[0].reading.Ok? {
        var got' := got + [ts[0].reading.value];
        assert got + Successes(ts) == got' + Successes(rest);
        NotEnoughReadingsSendsNothing(Tick(s, ts[0]).0, got', rest);
      } else {
        assert Successes(ts) == Successes(rest);
        NotEnoughReadingsSendsNothing(s, got, rest);
      }
    } else {
      assert got + [] == got;
    }
  }

  /** One more tick on top of a prefix of the ticks. */
  lemma RunStep(s: SessionState, ts: seq<TickOutcome>, i: nat)
    requires i < |ts|
    ensures var p := Run(s, ts[..i]);
      Run(s, ts[..i + 1]) == if p.running then Tick(p, ts[i]).0 else p
  {
    assert ts[..i + 1] == ts[..i] + [ts[i]];
    RunAppend(s, ts[..i], [ts[i]]);
  }

  /** Under the hypotheses of `SessionSendsOneBatch`, whatever prefix of the
      ticks has sent something has sent the batch, and the whole run has. */
  lemma BatchOfPrefix(target: Duration, ts: seq<TickOutcome>, i: nat)
    requires i <= |ts| && Benign(ts) && |Successes(ts)| >= TicksNeeded(target)
    ensures var p := Run(Started(target), ts[..i]);
      (p.sent != [] ==> p.sent == [Successes(ts)[..TicksNeeded(target)]])
      && (i == |ts| ==> p.sent != [])
  {
    var p := Run(Started(target), ts[..i]);
    SessionSendsOneBatch(target, ts);
    SentOnlyWhenStopped(Started(target), ts[..i]);
    assert ts == ts[..i] + ts[i..];
    RunAppend(Started(target), ts[..i], ts[i..]);
    if p.sent != [] {
      RunStopped(p, ts[i..]);
    }
  }

  // ---------------------------------------------------------------------------
  // The objects: timer, channel, session.

  /** A `DispatcherQueueTimer`: its settings, whether it runs, the tick
      handlers registered on it, and the tokens `RemoveTick` was called with. */
  class DispatcherQueueTimer {
    var interval: Duration
    var repeating: bool
    var running: bool
    var handlers: set<int>
    var nextToken: int
    ghost var removed: seq<int>

    ghost predicate Valid()
      reads this
    {
      forall t :: t in handlers ==> t < nextToken
    }

    constructor ()
      ensures Valid() && !running && !repeating && handlers == {} && removed == []
    {
      interval, repeating, running := 0, false, false;
      handlers, nextToken := {}, 0;
      removed := [];
    }

    method SetInterval(d: Duration, status: Status) returns (r: Result<()>)
      modifies this
      ensures r == Check(status)
      ensures interval == (if r.Ok? then d else old(interval))
      ensures repeating == old(repeating) && running == old(running)
      ensures handlers == old(handlers) && nextToken == old(nextToken) && removed == old(removed)
    {
      r := Check(status);
      if r.Ok? { interval := d; }
    }

    method SetIsRepeating(b: bool, status: Status) returns (r: Result<()>)
      modifies this
      ensures r == Check(status)
      ensures repeating == (if r.Ok? then b else old(repeating))
      ensures interval == old(interval) && running == old(running)
      ensures handlers == old(handlers) && nextToken == old(nextToken) && removed == old(removed)
    {
      r := Check(status);
      if r.Ok? { repeating := b; }
    }

    /** `Tick(handler)`: registers a handler and returns its new token. */
    method AddTick(status: Status) returns (r: Result<int>)
      requires Valid()
      modifies this
      ensures Valid()
      ensures !r.Panic? && (r.Ok? <==> status == S_OK) && (r.Err? ==> r.code == status)
      ensures r.Ok? ==> r.value !in old(handlers) && handlers == old(handlers) + {r.value}
      ensures !r.Ok? ==> handlers == old(handlers)
      ensures interval == old(interval) && repeating == old(repeating) && running == old(running)
      ensures removed == old(removed)
    {
      if status != S_OK {
        return Err(status);
      }
      r := Ok(nextToken);
      handlers := handlers + {nextToken};
      nextToken := nextToken + 1;
    }

    method RemoveTick(token: int)
      modifies this
      ensures handlers == old(handlers) - {token} && removed == old(removed) + [token]
      ensures interval == old(interval) && repeating == old(repeating) && running == old(running)
      ensures nextToken == old(nextToken)
    {
      handlers := handlers - {token};
      removed := removed + [token];
    }

    method Start(status: Status) returns (r: Result<()>)
      modifies this
      ensures r == Check(status)
      ensures running == (r.Ok? || old(running))
      ensures interval == old(interval) && repeating == old(repeating)
      ensures handlers == old(handlers) && nextToken == old(nextToken) && removed == old(removed)
    {
      r := Check(status);
      if r.Ok? { running := true; }
    }

    method Stop(status: Status) returns (r: Result<()>)
      modifies this
      ensures r == Check(status)
      ensures running == (old(running) && !r.Ok?)
      ensures interval == old(interval) && repeating == old(repeating)
      ensures handlers == old(handlers) && nextToken == old(nextToken) && removed == old(removed)
    {
      r := Check(status);
      if r.Ok? { running := false; }
    }
  }

  /** The mpsc channel that carries batches back: `queue` holds what was sent
      and not yet received, `history` everything ever sent. */
  class Channel {
    var queue: seq<seq<real>>
    ghost var history: seq<seq<real>>

    constructor ()
      ensures queue == [] && history == []
    {
      queue, history := [], [];
    }

    method Send(batch: seq<real>)
      modifies this
      ensures queue == old(queue) + [batch] && history == old(history) + [batch]
    {
      queue := queue + [batch];
      history := history + [batch];
    }

    /** `recv`, for a caller that finds a batch waiting: the oldest one. */
    method Recv() returns (batch: seq<real>)
      requires queue != []
      modifies this
      ensures batch == old(queue)[0] && queue == old(queue)[1..] && history == old(history)
    {
      batch := queue[0];
      queue := queue[1..];
    }
  }

  /** `PerfSessionInner`. */
  class PerfSessionInner {
    const targetLength: Duration
    var currentLength: Duration
    const tickLength: Duration
    var samples: seq<real>
    const tracker: Perf.PerfTracker
    const timer: DispatcherQueueTimer
    var timerToken: Option<int>
    const sender: Channel

    ghost predicate Valid()
      reads this, timer
    {
      tickLength == TICK_LENGTH && timer.interval == TICK_LENGTH && timer.repeating && timer.Valid()
      && (timerToken.Some? ==> timerToken.value in timer.handlers)
    }

    /** The session as the specification sees it. */
    ghost function Abs(): SessionState
      reads this, timer, sender
    {
      SessionState(targetLength, currentLength, samples, timer.running, sender.history)
    }

    constructor Create(target: Duration, tracker: Perf.PerfTracker, timer: DispatcherQueueTimer, sender: Channel)
      ensures targetLength == target && currentLength == 0 && tickLength == TICK_LENGTH && samples == []
      ensures this.tracker == tracker && this.timer == timer && this.sender == sender && timerToken.None?
    {
      targetLength, currentLength, tickLength := target, 0, TICK_LENGTH;
      samples := [];
      this.tracker, this.timer, this.sender := tracker, timer, sender;
      timerToken := None;
    }

    /** `on_tick`, proved to be the specification's `Tick` on the tracker's reading. */
    method OnTick(collectStatus: Status, read: Perf.CounterHandle -> Perf.CounterReading, stopStatus: Status)
      returns (r: Result<()>)
      requires Valid()
      modifies this, timer, tracker.query, sender
      ensures Valid() && timerToken == old(timerToken)
      ensures (Abs(), r) == Tick(old(Abs()), TickOutcome(Perf.CurrentValue(collectStatus, tracker.counterHandles, read), stopStatus))
      ensures tracker.query.collections == old(tracker.query.collections) + 1
      ensures sender.queue == old(sender.queue) + (sender.history[|old(sender.history)|..])
      ensures timer.handlers == old(timer.handlers) && timer.removed == old(timer.removed)
    {
      var value := tracker.GetCurrentValue(collectStatus, read);
      if !value.Ok? {
        return value.PropagateFailure();
      }
      samples := samples + [value.value];
      currentLength := currentLength + tickLength;
      if currentLength >= targetLength {
        var stopped := timer.Stop(stopStatus);
        if !stopped.Ok? {
          return stopped;
        }
        var batch := samples;
        samples := [];
        sender.Send(batch);
      }
      r := Ok(());
    }

    /** `Drop`: `take` the token and remove its handler, so at most once. */
    method Drop()
      modifies this, timer
      ensures timerToken.None?
      ensures old(timerToken).Some? ==> (timer.removed == old(timer.removed) + [old(timerToken).value]
        && timer.handlers == old(timer.handlers) - {old(timerToken).value})
      ensures old(timerToken).None? ==> timer.removed == old(timer.removed) && timer.handlers == old(timer.handlers)
      ensures timer.running == old(timer.running) && timer.nextToken == old(timer.nextToken)
      ensures timer.interval == old(timer.interval) && timer.repeating == old(timer.repeating)
      ensures currentLength == old(currentLength) && samples == old(samples)
    {
      var token := timerToken;
      timerToken := None;
      if token.Some? {
        timer.RemoveTick(token.value);
      }
    }
  }

  /** The tick handler registered in `start`: it holds the session weakly.
      When the session is gone (`session` is `None`) it only stops the timer. */
  method HandleTick(timer: DispatcherQueueTimer, session: Option<PerfSessionInner>,
                    collectStatus: Status, read: Perf.CounterHandle -> Perf.CounterReading, stopStatus: Status)
    returns (r: Result<()>)
    requires session.Some? ==> session.value.Valid() && session.value.timer == timer
    modifies timer, if session.Some? then {session.value, session.value.tracker.query, session.value.sender} else {}
    ensures session.None? ==> (r == Check(stopStatus) && timer.running == (old(timer.running) && !r.Ok?)
      && timer.handlers == old(timer.handlers))
    ensures session.Some? ==> (session.value.Valid()
      && (session.value.Abs(), r) == Tick(old(session.value.Abs()),
           TickOutcome(Perf.CurrentValue(collectStatus, session.value.tracker.counterHandles, read), stopStatus)))
  {
    if session.Some? {
      r := session.value.OnTick(collectStatus, read, stopStatus);
    } else {
      r := timer.Stop(stopStatus);
    }
  }

  /** What the operating system answers during `PerfSessionInner::start`. */
  datatype StartEnv = StartEnv(openQuery: Status, addCounters: string -> Result<seq<Perf.CounterHandle>>,
                               currentQueue: Status, createTimer: Status, setInterval: Status,
                               setRepeating: Status, addTick: Status, prime: Status, timerStart: Status)

  predicate StartSucceeds(pid: u32, luid: Option<Luid>, env: StartEnv) {
    env.openQuery == S_OK && env.addCounters(Perf.CounterPath(pid, luid)).Ok? && env.currentQueue == S_OK
    && env.createTimer == S_OK && env.setInterval == S_OK && env.setRepeating == S_OK && env.addTick == S_OK
    && env.prime == S_OK && env.timerStart == S_OK
  }

  /** The outcome of `start`'s fallible steps in source order: the failure of
      the first step that fails (opening the query, adding the counters,
      `GetForCurrentThread`, `CreateTimer`, `SetInterval`, `SetIsRepeating`,
      `Tick`, priming, `Start`), or `Ok` when none does. */
  function StartOutcome(pid: u32, luid: Option<Luid>, env: StartEnv): (r: Result<()>)
    ensures r.Ok? <==> StartSucceeds(pid, luid, env)
    ensures r.Panic? ==> env.openQuery == S_OK && env.addCounters(Perf.CounterPath(pid, luid)).Panic?
    ensures env.openQuery != S_OK ==> r == Err(env.openQuery)
    ensures ReachesPriming(pid, luid, env) && env.prime != S_OK ==> r == Err(env.prime)
    ensures ReachesPriming(pid, luid, env) && env.prime == S_OK ==> r == Check(env.timerStart)
  {
    var added := env.addCounters(Perf.CounterPath(pid, luid));
    if env.openQuery != S_OK then Err(env.openQuery)
    else if !added.Ok? then added.PropagateFailure()
    else if env.currentQueue != S_OK then Err(env.currentQueue)
    else if env.createTimer != S_OK then Err(env.createTimer)
    else if env.setInterval != S_OK then Err(env.setInterval)
    else if env.setRepeating != S_OK then Err(env.setRepeating)
    else if env.addTick != S_OK then Err(env.addTick)
    else if env.prime != S_OK then Err(env.prime)
    else Check(env.timerStart)
  }

  /** Every step of `start` before priming succeeds. */
  predicate ReachesPriming(pid: u32, luid: Option<Luid>, env: StartEnv) {
    env.openQuery == S_OK && env.addCounters(Perf.CounterPath(pid, luid)).Ok? && env.currentQueue == S_OK
    && env.createTimer == S_OK && env.setInterval == S_OK && env.setRepeating == S_OK && env.addTick == S_OK
  }

  /** `PerfSessionInner::start`. `timer` is the timer `CreateTimer` hands out.
      On success the session is `Started`, its timer repeats every 500 ms, the
      tracker has been primed exactly once and the handler's token is stored.
      The token is stored before priming and the timer is started after it:
      when priming fails, the timer never ran and dropping the half-built
      session removes the handler it had registered. */
  method StartSession(duration: Duration, pid: u32, luid: Option<Luid>, env: StartEnv, timer: DispatcherQueueTimer)
    returns (r: Result<PerfSessionInner>)
    requires timer.Valid()
    modifies timer
    ensures timer.Valid()
    ensures r.Ok? <==> StartSucceeds(pid, luid, env)
    ensures r.Ok? ==> fresh(r.value) && fresh(r.value.sender) && fresh(r.value.tracker) && fresh(r.value.tracker.query)
    ensures r.Ok? ==> (r.value.timer == timer && r.value.Valid() && r.value.Abs() == Started(duration)
      && r.value.tracker.query.collections == 1 && r.value.sender.queue == []
      && r.value.timerToken.Some? && r.value.timerToken.value !in old(timer.handlers)
      && timer.handlers == old(timer.handlers) + {r.value.timerToken.value}
      && r.value.tracker.counterHandles == env.addCounters(Perf.CounterPath(pid, luid)).value)
    ensures !r.Ok? ==> timer.handlers == old(timer.handlers) && timer.running == old(timer.running)
    ensures !StartSucceeds(pid, luid, env) ==> r == StartOutcome(pid, luid, env).PropagateFailure()
    ensures ReachesPriming(pid, luid, env) && env.prime != S_OK ==>
      r == Err(env.prime) && |timer.removed| == |old(timer.removed)| + 1
  {
    var tracker :- Perf.NewTracker(pid, luid, env.openQuery, env.addCounters);
    if env.currentQueue != S_OK {
      return Err(env.currentQueue);
    }
    if env.createTimer != S_OK {
      return Err(env.createTimer);
    }
    var interval := timer.SetInterval(TICK_LENGTH, env.setInterval);
    if !interval.Ok? {
      return interval.PropagateFailure();
    }
    var repeating := timer.SetIsRepeating(true, env.setRepeating);
    if !repeating.Ok? {
      return repeating.PropagateFailure();
    }
    var sender := new Channel();
    var inner := new PerfSessionInner.Create(duration, tracker, timer, sender);
    var armed := Arm(inner, env);
    if !armed.Ok? {
      return armed.PropagateFailure();
    }
    r := Ok(inner);
  }

  /** The second half of `start`: register the tick handler and store its
      token, prime the tracker, start the timer. A failure after registration
      drops the session, which removes the handler again. */
  method Arm(inner: PerfSessionInner, env: StartEnv) returns (r: Result<()>)
    requires inner.Valid() && inner.timerToken.None?
    modifies inner, inner.timer, inner.tracker.query
    ensures inner.Valid()
    ensures r.Ok? <==> env.addTick == S_OK && env.prime == S_OK && env.timerStart == S_OK
    ensures r.Ok? ==> (inner.Abs() == old(inner.Abs()).(running := true)
      && inner.tracker.query.collections == old(inner.tracker.query.collections) + 1
      && inner.timerToken.Some? && inner.timerToken.value !in old(inner.timer.handlers)
      && inner.timer.handlers == old(inner.timer.handlers) + {inner.timerToken.value})
    ensures !r.Ok? ==> inner.timer.handlers == old(inner.timer.handlers) && inner.timer.running == old(inner.timer.running)
    ensures env.addTick != S_OK ==> r == Err(env.addTick)
    ensures env.addTick == S_OK && env.prime != S_OK ==>
      r == Err(env.prime) && |inner.timer.removed| == |old(inner.timer.removed)| + 1
    ensures env.addTick == S_OK && env.prime == S_OK && env.timerStart != S_OK ==>
      r == Err(env.timerStart) && |inner.timer.removed| == |old(inner.timer.removed)| + 1
  {
    var token := inner.timer.AddTick(env.addTick);
    if !token.Ok? {
      return token.PropagateFailure();
    }
    inner.timerToken := Some(token.value);
    var primed := inner.tracker.Start(env.prime);
    if !primed.Ok? {
      inner.Drop();
      return primed.PropagateFailure();
    }
    var started := inner.timer.Start(env.timerStart);
    if !started.Ok? {
      inner.Drop();
      return started.PropagateFailure();
    }
    r := Ok(());
  }

  /** The tracker's reading for each tick the UI thread delivers. */
  function Outcomes(handles: seq<Perf.CounterHandle>, ticks: seq<TickEnv>): (os: seq<TickOutcome>)
    ensures |os| == |ticks|
    ensures forall i :: 0 <= i < |ticks| ==>
      os[i] == TickOutcome(Perf.CurrentValue(ticks[i].collect, handles, ticks[i].read), ticks[i].stopStatus)
  {
    if ticks == [] then []
    else [TickOutcome(Perf.CurrentValue(ticks[0].collect, handles, ticks[0].read), ticks[0].stopStatus)]
         + Outcomes(handles, ticks[1..])
  }

  /** What the operating system answers during one tick. */
  datatype TickEnv = TickEnv(collect: Status, read: Perf.CounterHandle -> Perf.CounterReading, stopStatus: Status)

  /** The UI thread's message loop: each tick while the timer runs goes to
      `on_tick`, until the receiver has a batch or a handler panics. */
  method DeliverTicks(inner: PerfSessionInner, ticks: seq<TickEnv>) returns (panicked: bool, ghost n: nat)
    requires inner.Valid() && inner.sender.queue == inner.sender.history
    modifies inner, inner.timer, inner.tracker.query, inner.sender
    ensures inner.Valid() && inner.timerToken == old(inner.timerToken) && n <= |ticks|
    ensures inner.timer.handlers == old(inner.timer.handlers)
    ensures var os := Outcomes(inner.tracker.counterHandles, ticks);
      if panicked then n < |ticks| && os[n].reading.Panic?
      else (inner.Abs() == Run(old(inner.Abs()), os[..n]) && inner.sender.queue == inner.sender.history
            && (inner.sender.queue == [] ==> n == |ticks|))
  {
    ghost var s0 := inner.Abs();
    ghost var os := Outcomes(inner.tracker.counterHandles, ticks);
    var i := 0;
    while i < |ticks| && inner.sender.queue == []
      invariant 0 <= i <= |ticks|
      invariant inner.Valid() && inner.timerToken == old(inner.timerToken)
      invariant inner.timer.handlers == old(inner.timer.handlers)
      invariant inner.Abs() == Run(s0, os[..i])
      invariant inner.sender.queue == inner.sender.history
      decreases |ticks| - i
    {
      RunStep(s0, os, i);
      if inner.timer.running {
        var t := inner.OnTick(ticks[i].collect, ticks[i].read, ticks[i].stopStatus);
        if t.Panic? {
          return true, i;
        }
      }
      i := i + 1;
    }
    return false, i;
  }

  /** `run_on_thread`: enqueue `start` on the UI thread and receive its result
      (the first receive), then block until the session's batch arrives (the
      second receive) while the UI thread delivers `ticks`; finally the session
      is dropped. `None` means the caller is still blocked after those ticks.
      A panicking tick aborts the process, reported here as `Panic`.
      `enqueued` is the `bool` that `TryEnqueue` answers: when the queue
      declines the handler, the handler and its sender are dropped unsent and
      the first receive's `unwrap` panics. */
  method RunOnThread(enqueueStatus: Status, enqueued: bool, duration: Duration, pid: u32, luid: Option<Luid>,
                     env: StartEnv, timer: DispatcherQueueTimer, ticks: seq<TickEnv>)
    returns (r: Option<Result<seq<real>>>)
    requires timer.Valid()
    modifies timer
    ensures enqueueStatus != S_OK ==> r == Some(Err(enqueueStatus))
    ensures enqueueStatus == S_OK && !enqueued ==> r == Some(Panic)
    ensures enqueueStatus == S_OK && enqueued && !StartSucceeds(pid, luid, env) ==>
      r == Some(StartOutcome(pid, luid, env).PropagateFailure())
    ensures r.Some? && r.value.Ok? ==> timer.handlers == old(timer.handlers)
    ensures enqueueStatus == S_OK && enqueued && StartSucceeds(pid, luid, env) ==>
      var os := Outcomes(env.addCounters(Perf.CounterPath(pid, luid)).value, ticks);
      Benign(os) && |Successes(os)| >= TicksNeeded(duration) ==>
        r == Some(Ok(Successes(os)[..TicksNeeded(duration)]))
  {
    if enqueueStatus != S_OK {
      return Some(Err(enqueueStatus));
    }
    if !enqueued {
      return Some(Panic);
    }
    var started := StartSession(duration, pid, luid, env, timer);
    if !started.Ok? {
      return Some(started.PropagateFailure());
    }
    var inner := started.value;
    ghost var os := Outcomes(inner.tracker.counterHandles, ticks);
    ghost var i;
    var panicked;
    panicked, i := DeliverTicks(inner, ticks);
    if panicked {
      return Some(Panic);
    }
    assert Run(Started(duration), os[..i]) == inner.Abs();
    if Benign(os) && |Successes(os)| >= TicksNeeded(duration) {
      BatchOfPrefix(duration, os, i);
    }
    if inner.sender.queue == [] {
      return None;
    }
    var batch := inner.sender.Recv();
    inner.Drop();
    r := Some(Ok(batch));
  }
}
