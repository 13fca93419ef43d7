/** The stop-event wrapper (src/windows_utils/event.rs): an owned handle to a
    Win32 event object. The kernel object is shared state; every `Event` value
    is one handle to it, and a clone is a second handle to the same object. */
module Events {
  import opened Win

  const INFINITE: u32 := 0xFFFF_FFFF
  const WAIT_OBJECT_0: u32 := 0
  const WAIT_TIMEOUT: u32 := 0x102
  const WAIT_FAILED: u32 := 0xFFFF_FFFF

  /** How long `wait` may block. */
  datatype EventTimeout = TimeoutNone | TimeoutInfinite | TimeoutDuration(d: Duration)

  datatype WaitResult = Signaled | TimedOut

  /** The millisecond count handed to `WaitForSingleObject`; a duration is cut to
      whole milliseconds and then to 32 bits (`as_millis() as u32`). */
  function TimeoutMillis(t: EventTimeout): (ms: u32)
    ensures t.TimeoutNone? ==> ms == 0
    ensures t.TimeoutInfinite? ==> ms == INFINITE
    ensures t.TimeoutDuration? ==> (t.d / NANOS_PER_MILLI - ms) % TWO_32 == 0
  {
    match t
    case TimeoutNone => 0
    case TimeoutInfinite => INFINITE
    case TimeoutDuration(d) => (d / NANOS_PER_MILLI) % TWO_32
  }

  /** A duration shorter than 2^32 - 1 ms waits for exactly its whole
      milliseconds: `ms` full milliseconds fit in it and `ms + 1` do not. */
  lemma DurationWaitsWholeMillis(d: Duration)
    requires d / NANOS_PER_MILLI < INFINITE
    ensures var ms := TimeoutMillis(TimeoutDuration(d));
      ms != INFINITE && ms * NANOS_PER_MILLI <= d < (ms + 1) * NANOS_PER_MILLI
  {
  }

  /** The 32-bit truncation is visible at its edges: a duration of 2^32 - 1 ms
      waits forever and one of 2^32 ms does not wait at all. */
  lemma DurationTruncationEdges()
    ensures TimeoutMillis(TimeoutDuration(INFINITE * NANOS_PER_MILLI)) == TimeoutMillis(TimeoutInfinite)
    ensures TimeoutMillis(TimeoutDuration(TWO_32 * NANOS_PER_MILLI + 999_999)) == TimeoutMillis(TimeoutNone)
  {
  }

  /** The `match` on the value `WaitForSingleObject` returned; anything but
      WAIT_OBJECT_0 or WAIT_TIMEOUT is `Error::from_win32()`, the HRESULT made
      from the thread's last Win32 error. */
  function MapWaitResult(code: u32, lastError: u32): (r: Result<WaitResult>)
    ensures !r.Panic?
    ensures r == Ok(Signaled) <==> code == WAIT_OBJECT_0
    ensures r == Ok(TimedOut) <==> code == WAIT_TIMEOUT
    ensures r.Err? ==> r.code == HResultFromWin32(lastError)
  {
    if code == WAIT_OBJECT_0 then Ok(Signaled)
    else if code == WAIT_TIMEOUT then Ok(TimedOut)
    else Err(HResultFromWin32(lastError))
  }

  /** The return value of `WaitForSingleObject` that reports `w`. */
  function WaitCode(w: WaitResult): (code: u32)
  {
    if w.Signaled? then WAIT_OBJECT_0 else WAIT_TIMEOUT
  }

  /** The result mapping and `WaitCode` are inverse: every wait result comes
      from exactly one return value and every success maps back to its code. */
  lemma WaitResultRoundTrip(w: WaitResult, code: u32, lastError: u32)
    ensures MapWaitResult(WaitCode(w), lastError) == Ok(w)
    ensures MapWaitResult(code, lastError).Ok? ==> WaitCode(MapWaitResult(code, lastError).value) == code
  {
  }

  /** What the operating system does on one wait, beyond the event's own state:
      whether the call fails (and the Win32 last error it leaves), and whether another
      thread signals the event before a non-zero timeout runs out. */
  datatype WaitEnv = WaitEnv(fails: bool, lastError: u32, signalArrives: bool)

  /** The kernel side of `WaitForSingleObject` on an event (CreateEventW's
      contract): a signalled event, or one signalled during a non-zero wait,
      satisfies the wait, and an auto-reset event is reset by satisfying it.
      An infinite wait is taken to return once the event is signalled.
      Yields the return value and whether the event is still signalled. */
  function KernelWait(signaled: bool, manualReset: bool, open: bool, ms: u32, env: WaitEnv): (res: (u32, bool))
    ensures res.0 == WAIT_OBJECT_0 || res.0 == WAIT_TIMEOUT || res.0 == WAIT_FAILED
    ensures res.0 == WAIT_FAILED <==> !open || env.fails
    ensures res.0 == WAIT_FAILED ==> res.1 == signaled
    ensures res.0 == WAIT_TIMEOUT ==> !signaled && !res.1
    ensures res.0 == WAIT_OBJECT_0 ==> res.1 == manualReset
    ensures ms == 0 && open && !env.fails ==> (res.0 == WAIT_OBJECT_0 <==> signaled)
  {
    if !open || env.fails then (WAIT_FAILED, signaled)
    else if signaled || (ms != 0 && (env.signalArrives || ms == INFINITE)) then (WAIT_OBJECT_0, manualReset)
    else (WAIT_TIMEOUT, false)
  }

  /** The kernel event object that every handle refers to. */
  class EventObject {
    var signaled: bool
    const manualReset: bool

    constructor (manualReset: bool, initialState: bool)
      ensures this.manualReset == manualReset && signaled == initialState
    {
      this.manualReset := manualReset;
      signaled := initialState;
    }
  }

  /** `Event(HANDLE)`: one open (or, after `Drop`, closed) handle to `obj`. */
  class Event {
    const obj: EventObject
    var open: bool

    constructor Handle(obj: EventObject)
      ensures this.obj == obj && open
    {
      this.obj := obj;
      open := true;
    }

    /** `wait`: map the timeout, wait on the object, map the result. */
    method Wait(timeout: EventTimeout, env: WaitEnv) returns (r: Result<WaitResult>)
      modifies obj
      ensures var res := KernelWait(old(obj.signaled), obj.manualReset, open, TimeoutMillis(timeout), env);
        r == MapWaitResult(res.0, env.lastError) && obj.signaled == res.1
    {
      var ms := TimeoutMillis(timeout);
      var res := KernelWait(obj.signaled, obj.manualReset, open, ms, env);
      obj.signaled := res.1;
      r := MapWaitResult(res.0, env.lastError);
    }

    /** `is_signaled`: a zero-timeout wait, true exactly when it reports
        `Signaled`. On an auto-reset event a true answer consumes the signal. */
    method IsSignaled(env: WaitEnv) returns (r: Result<bool>)
      modifies obj
      ensures !r.Panic?
      ensures r.Ok? <==> open && !env.fails
      ensures r.Err? ==> r.code == HResultFromWin32(env.lastError) && obj.signaled == old(obj.signaled)
      ensures r.Ok? ==> r.value == old(obj.signaled)
      ensures r.Ok? && !obj.manualReset ==> !obj.signaled
      ensures r.Ok? && obj.manualReset ==> obj.signaled == old(obj.signaled)
    {
      var w := Wait(TimeoutNone, env);
      if w.Ok? {
        r := Ok(w.value == Signaled);
      } else {
        r := Err(w.code);
      }
    }

    /** `signal`: `SetEvent` on this handle sets the shared object; its
        failure is the HRESULT made from the Win32 last error. */
    method Signal(fails: bool, lastError: u32) returns (r: Result<()>)
      modifies obj
      ensures !r.Panic?
      ensures r.Ok? <==> open && !fails
      ensures r.Ok? ==> obj.signaled
      ensures r.Err? ==> r.code == HResultFromWin32(lastError) && obj.signaled == old(obj.signaled)
    {
      if !open || fails {
        r := Err(HResultFromWin32(lastError));
      } else {
        obj.signaled := true;
        r := Ok(());
      }
    }

    /** `Clone`: `DuplicateHandle` gives a second handle to the same object;
        a failed duplication panics through `unwrap`. */
    method Clone(duplicateStatus: Status) returns (r: Result<Event>)
      ensures r.Ok? || r.Panic?
      ensures r.Ok? <==> duplicateStatus == S_OK
      ensures r.Ok? ==> fresh(r.value) && r.value.obj == obj && r.value.open
    {
      if duplicateStatus == S_OK {
        var e := new Event.Handle(obj);
        r := Ok(e);
      } else {
        r := Panic;
      }
    }

    /** `Drop`: `CloseHandle` closes this handle only; the object and every
        other handle to it are untouched. */
    method Close()
      modifies this
      ensures !open && unchanged(obj)
    {
      open := false;
    }
  }

  /** `Event::new`: `CreateEventW(None, false, false, None)` makes an auto-reset
      event that starts out not signalled. */
  method NewEvent(createStatus: Status) returns (r: Result<Event>)
    ensures !r.Panic?
    ensures r.Ok? <==> createStatus == S_OK
    ensures r.Err? ==> r.code == createStatus
    ensures r.Ok? ==> fresh(r.value) && fresh(r.value.obj) && r.value.open
    ensures r.Ok? ==> !r.value.obj.manualReset && !r.value.obj.signaled
  {
    if createStatus != S_OK {
      return Err(createStatus);
    }
    var obj := new EventObject(false, false);
    var e := new Event.Handle(obj);
    r := Ok(e);
  }

  /** A signal sent through one handle is seen, once, through a clone of it:
      the first zero-timeout check answers true and the second false. */
  method SignalThroughClone(e: Event, ok: WaitEnv) returns (first: Result<bool>, second: Result<bool>)
    requires e.open && !e.obj.manualReset && !ok.fails
    modifies e.obj
    ensures first == Ok(true) && second == Ok(false)
  {
    var c := e.Clone(S_OK);
    if c.Ok? {
      var s := e.Signal(false, 0);
      first := c.value.IsSignaled(ok);
      second := c.value.IsSignaled(ok);
    }
  }
}
