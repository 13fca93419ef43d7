# wgcperf core, modelled in Dafny

wgcperf measures how much GPU 3D-engine time the desktop window manager
spends while a screen is captured. It places a small animated window on the
primary monitor. It finds the DXGI adapter and output that show that monitor.
It then runs three passes: a baseline, a capture with Windows.Graphics.Capture
and a capture with Desktop Duplication (DDA). Each pass samples the PDH counter
`\GPU Engine(pid_<dwm>..._engtype_3D)\Utilization Percentage` every 500 ms on a
UI thread, for the test duration. It then prints the average utilisation per
adapter.

This project models that core:

- `win.dfy` (`Win`): the shared outcome type. `Result` is `Ok`, `Err(code)` or
  `Panic`. `Panic` stands for a Rust panic and is propagated like `?`. The file
  also holds `AllOk`, the meaning of a loop that pushes `x?` for each item, and
  `HRESULT_FROM_WIN32`.
- `wide.dfy` (`Wide`): fixed-size UTF-16 name buffers. A name is cut at the
  first NUL and decoded like `String::from_utf16`. The file proves round trips
  against a UTF-16 encoder.
- `events.dfy` (`Events`): the `Event` wrapper around a Win32 auto-reset event.
  The kernel object is a class shared by every handle, and a clone is a second
  handle to the same object.
- `perf.rs` → `perf.dfy` (`Perf`): the counter path, the PDH query, and
  `get_current_value`'s loop. The loop is proved against the pure `Accumulate`.
- `perf_session.rs` → `perf_session.dfy` (`PerfSession`): the pure session
  specification `Tick` and `Run`, the timer, the channel, the session object
  and `run_on_thread`.
- `sinks/dda.rs` → `dda.dfy` (`DdaSink`): the DDA sink and its worker thread.
  The pure specification is `WorkerStep`, `StartStep` and `StopStep`. The
  classes are proved to follow it. `WorkerStep` is the loop as written, so an
  acquire timeout ends the worker. `WorkerStepRetrying` is the corrected loop
  (see "Findings").
- `windows_utils/dxgi.rs` → `dxgi.dfy` (`Dxgi`), `adapter.rs` → `adapter.dfy`
  (`Adapters`), `monitor.rs` → `monitor.dfy` (`Monitors`), `window.rs` →
  `window.dfy` (`Window`), and `main.rs` → `main.dfy` (`Benchmark`).

Operating-system calls are not executed. Each one is a parameter: a status (0
is success) or the value the call would return. Durations are whole
nanoseconds, as in Rust's `Duration`. Readings are `real`.

## Model

| member | source | states |
|---|---|---|
| `Win.AllOk` | src/main.rs:199-205 | A loop pushing `x?` per item yields Ok exactly when every item is Ok, with every value in order. Otherwise it yields the failure of the first failing item, and every item before it was Ok. |
| `Win.HResultFromWin32` | src/monitor.rs:59 | `HRESULT::from_win32`: 0 maps to success. A code with the top bit set passes through unchanged. Any other code keeps its low 16 bits under facility 0x8007. Every failure is a negative HRESULT. |
| `Wide.FirstNul` | src/adapter.rs:22-26 | The position of the first NUL, or the buffer length: no NUL before it, and a NUL at it when it is inside the buffer. |
| `Wide.TruncateAtNul` | src/adapter.rs:22-26 | The name is a prefix of the buffer, holds no NUL, and is followed by a NUL or ends the buffer. |
| `Wide.TruncateAtNulInverse` | src/adapter.rs:22-26 | A NUL-free name is recovered from the buffer whether it fills it or is followed by a NUL and anything. |
| `Wide.DecodeUtf16` | src/adapter.rs:27 | Decoding never panics, and it fails only with E_NO_UNICODE_TRANSLATION. |
| `Wide.DecodeEncode` | src/adapter.rs:27 | Decoding an encoded string gives the string back. |
| `Wide.EncodeDecode` | src/adapter.rs:27 | Units that decode are exactly the encoding of what they decode to. |
| `Wide.DecodeKeepsNoNul` | src/adapter.rs:22-27 | A decoded name that had no NUL unit has no NUL character. |
| `Wide.NameOf` | src/monitor.rs:61-66 | A decoded name re-encodes to the buffer up to its first NUL and holds no NUL. It fails exactly when that prefix does not decode, and never panics. |
| `Wide.EncodeKeepsNoNul` | src/monitor.rs:61-66 | Encoding a NUL-free string gives no NUL unit. |
| `Wide.NameOfStored` | src/monitor.rs:61-66 | A NUL-free name written into a buffer, alone or NUL-terminated, is read back unchanged. |
| `Events.TimeoutMillis` | src/windows_utils/event.rs:66-70 | `None` is 0 ms and `Infinite` is INFINITE. A duration is its whole milliseconds modulo 2^32 (`as_millis() as u32`). |
| `Events.DurationWaitsWholeMillis` | src/windows_utils/event.rs:69 | Below 2^32-1 ms, a duration waits exactly its whole milliseconds and is never mistaken for INFINITE. |
| `Events.DurationTruncationEdges` | src/windows_utils/event.rs:69 | The u32 cast shows at its edges: 2^32-1 ms waits forever, and 2^32 ms plus under 1 ms does not wait. |
| `Events.MapWaitResult` | src/windows_utils/event.rs:72-76 | WAIT_OBJECT_0 is exactly Signaled and WAIT_TIMEOUT is exactly TimedOut. Anything else is `Error::from_win32()`: `HRESULT::from_win32` of the thread's Win32 last error. |
| `Events.WaitResultRoundTrip` | src/windows_utils/event.rs:72-76 | The result mapping and the code of each wait result are inverse on successes. |
| `Events.KernelWait` | src/windows_utils/event.rs:71 | The wait fails exactly on a closed handle or a failing call. A timeout leaves the event unsignalled. Success resets an auto-reset event. A zero wait succeeds exactly when the event is set. |
| `Events.EventObject.constructor` | src/windows_utils/event.rs:61 | A new kernel event has the requested reset mode and initial state. |
| `Events.Event.Handle` | src/windows_utils/event.rs:16 | A handle refers to its object and is open. |
| `Events.Event.Wait` | src/windows_utils/event.rs:65-77 | The result is the mapped kernel answer for the converted timeout, and the object's new state is the kernel's. A failed wait returns `HRESULT::from_win32` of the thread's Win32 last error. |
| `Events.Event.IsSignaled` | src/windows_utils/event.rs:79-82 | Ok exactly when the handle is open and the call works. The answer is the state before the call. A true answer consumes an auto-reset signal. An error is `HRESULT::from_win32` of the thread's Win32 last error and changes nothing. |
| `Events.Event.Signal` | src/windows_utils/event.rs:84-86 | Ok exactly when open and the call works, and then the shared object is set. An error is `BOOL::ok()`'s `HRESULT::from_win32` of the thread's Win32 last error and leaves the object unchanged. |
| `Events.Event.Clone` | src/windows_utils/event.rs:26-44 | A successful duplication gives a new open handle to the same object. A failed one panics through `unwrap`. |
| `Events.Event.Close` | src/windows_utils/event.rs:20-24 | Dropping closes this handle only, and the object is unchanged. |
| `Events.NewEvent` | src/windows_utils/event.rs:60-63 | Ok exactly when `CreateEventW` succeeds, with a new open handle to a new auto-reset, unsignalled event. |
| `Events.SignalThroughClone` | src/windows_utils/event.rs:79-86 | A signal set through one handle is seen once through its clone: the first check answers true and the second false. |
| `Perf.HexChar` | src/perf.rs:23 | A digit below 16 prints as one upper-case hex digit of that value. |
| `Perf.Decimal` | src/perf.rs:23-24 | `{}` prints at least one decimal digit, with no leading zero. |
| `Perf.ParseDecimalOfDecimal` | src/perf.rs:23-24 | Reading the printed pid back gives the pid. |
| `Perf.HexDigits` | src/perf.rs:23 | Exactly k upper-case hex digits. |
| `Perf.ParseHexOfHexDigits` | src/perf.rs:23 | Eight zero-padded hex digits read back to any value below 16^8. |
| `Perf.HexField` | src/perf.rs:23-24 | `{:#010X}` is `0x` followed by exactly eight upper-case hex digits. |
| `Perf.HexFieldRoundTrip` | src/perf.rs:23-24 | Every u32 reads back from its `{:#010X}` field. |
| `Perf.Bits32` | src/perf.rs:24 | `HighPart` is printed as the u32 congruent to it modulo 2^32, so a negative value prints as its 32-bit two's complement. |
| `Perf.DigitRun` | src/perf.rs:23 | The run of leading decimal digits, stopping at the first non-digit. |
| `Perf.LuidPartRoundTrip` | src/perf.rs:21-26 | The `_luid_<High>_<Low>` part reads back to the LUID, including a negative high half. |
| `Perf.CounterPath` | src/perf.rs:21-31 | The path has the fixed `\GPU Engine(pid_` prefix and `*engtype_3D)\Utilization Percentage` suffix. It has no LUID part exactly when no LUID was given. |
| `Perf.ParseCounterPath` | src/perf.rs:21-31 | The reference reader for counter paths. It accepts only text with the fixed prefix and suffix and something between them. |
| `Perf.MiddleRoundTrip` | src/perf.rs:21-26 | The text between prefix and suffix, the pid and then the LUID part, reads back to the pid and LUID. |
| `Perf.CounterPathRoundTrip` | src/perf.rs:21-31 | The counter path, with or without a LUID, reads back to exactly the pid and LUID it was built for. |
| `Perf.CounterPathInjective` | src/perf.rs:21-31 | Two different (pid, LUID) requests never produce the same counter path. |
| `Perf.Accumulate` | src/perf.rs:50-68 | The counter loop returns a value exactly when every counter reads cleanly: its call succeeds and its `CStatus` is valid. |
| `Perf.CurrentValue` | src/perf.rs:47-69 | A failed collection is returned first. Otherwise the reading is a value exactly when every counter reads cleanly. |
| `Perf.AccumulateSums` | src/perf.rs:50-68 | When every counter reads cleanly, the reading is the sum of all counter values in handle order. |
| `Perf.AccumulateStopsAtFirstBadCounter` | src/perf.rs:51-66 | A failed reading is decided by the first counter that does not read cleanly. A failed call gives its status. An invalid `CStatus` panics (`assert_eq!`). |
| `Perf.NoCountersReadZero` | src/perf.rs:47-69 | With no counters the reading is 0.0 after a successful collection, and the collection's error otherwise. |
| `Perf.PdhQuery.constructor` | src/perf.rs:34 | A newly opened query has been collected 0 times. |
| `Perf.PdhQuery.Collect` | src/perf.rs:75-77 | One collection call is counted, and its status is the result. |
| `Perf.PerfTracker.Create` | src/perf.rs:37-40 | The tracker holds the query and the counter handles it was built with. |
| `Perf.PerfTracker.Start` | src/perf.rs:43-45 | Priming is exactly one collection, and its status is the result. |
| `Perf.PerfTracker.GetCurrentValue` | src/perf.rs:47-69 | One collection. The result is the collection error, or the in-order accumulation over the counters, which is the `Accumulate` specification. |
| `Perf.NewTracker` | src/perf.rs:20-41 | Opening failure or the counter-adding failure is returned in that order. On success a new query has not yet been collected and holds the counters matched by `CounterPath(pid, luid)`. |
| `PerfSession.Tick` | src/perf_session.rs:115-126 | `on_tick` keeps the target and panics only on a panicking reading. It sends at most one batch, the buffered readings plus this one. After a send the timer is stopped and the buffer empty. |
| `PerfSession.Run` | src/perf_session.rs:115-126 | A run of ticks keeps the target and never takes back a sent batch. A stopped session ignores every tick. |
| `PerfSession.TicksNeeded` | src/perf_session.rs:115-126 | The number of ticks a session takes is the least n >= 1 whose n ticks of 500 ms reach the target. |
| `PerfSession.SuccessfulTickAdvances` | src/perf_session.rs:115-126 | A good reading adds one tick of time and ends the buffer, or the batch it completes. The tick fails only when `Stop` fails after the target is reached. |
| `PerfSession.FailedTickChangesNothing` | src/perf_session.rs:116 | A failed reading returns its error before the push, and the state is unchanged. |
| `PerfSession.TickAfterCompletionSendsAgain` | src/perf_session.rs:118-123 | A completed session given one more good tick sends a second batch with that one reading. |
| `PerfSession.RunAppend` | src/perf_session.rs:115-126 | Running two tick sequences one after the other is running their concatenation. |
| `PerfSession.RunStopped` | src/perf_session.rs:119-120 | Once the timer is stopped, further timer ticks change nothing. |
| `PerfSession.SentOnlyWhenStopped` | src/perf_session.rs:119-122 | A batch is only ever sent with the timer stopped. |
| `PerfSession.RunCollects` | src/perf_session.rs:115-126 | A collecting session that gets enough good readings ends stopped with an empty buffer. It has sent one batch: its readings so far and the following good readings, cut to the ticks needed. |
| `PerfSession.SessionSendsOneBatch` | src/perf_session.rs:115-126 | Without panics or failing `Stop`, a fresh session sends exactly one batch. The batch is the first max(1, ceil(target/500 ms)) good readings in tick order. The elapsed time reaches the target and the buffer is empty. |
| `PerfSession.NotEnoughReadingsSendsNothing` | src/perf_session.rs:115-126 | With too few good readings the session is still collecting, all of them buffered, and nothing has been sent. |
| `PerfSession.DispatcherQueueTimer.constructor` | src/perf_session.rs:74 | A created timer is stopped, not repeating and has no handlers. |
| `PerfSession.DispatcherQueueTimer.SetInterval` | src/perf_session.rs:76 | The interval is set exactly when the call succeeds, and nothing else changes. |
| `PerfSession.DispatcherQueueTimer.SetIsRepeating` | src/perf_session.rs:77 | The repeat flag is set exactly when the call succeeds, and nothing else changes. |
| `PerfSession.DispatcherQueueTimer.AddTick` | src/perf_session.rs:91-104 | A successful registration returns a token not in use and adds exactly that handler. |
| `PerfSession.DispatcherQueueTimer.RemoveTick` | src/perf_session.rs:132 | The token's handler is removed and the removal is recorded. |
| `PerfSession.DispatcherQueueTimer.Start` | src/perf_session.rs:110 | The timer runs after a successful start, and nothing else changes. |
| `PerfSession.DispatcherQueueTimer.Stop` | src/perf_session.rs:120 | The timer stops exactly when the call succeeds, and nothing else changes. |
| `PerfSession.Channel.constructor` | src/perf_session.rs:79 | A new channel is empty. |
| `PerfSession.Channel.Send` | src/perf_session.rs:122 | The batch joins the back of the queue. |
| `PerfSession.Channel.Recv` | src/perf_session.rs:56 | The oldest waiting batch is received and removed. |
| `PerfSession.PerfSessionInner.Create` | src/perf_session.rs:80-89 | Zero elapsed time, no samples, a 500 ms tick and no token. |
| `PerfSession.PerfSessionInner.OnTick` | src/perf_session.rs:115-126 | The new abstract state and result are `Tick` of the old state on the tracker's reading. There is exactly one collection, the sent batches reach the receiver, and the handlers are unchanged. |
| `PerfSession.PerfSessionInner.Drop` | src/perf_session.rs:129-135 | A stored token is taken and its handler removed, once. Without a token nothing is removed. |
| `PerfSession.HandleTick` | src/perf_session.rs:91-104 | While the session is alive the handler is `Tick`. Once it is gone the handler only stops the timer. |
| `PerfSession.StartOutcome` | src/perf_session.rs:63-111 | The failure of the first failing step of `start` in source order, or Ok exactly when every step succeeds. Only adding the counters can panic. An open failure, a priming failure and a `Start` failure after a good priming are returned as those statuses. |
| `PerfSession.StartSession` | src/perf_session.rs:63-113 | Ok exactly when every step succeeds, and otherwise the failure `StartOutcome` names: the first failing step's error, in source order. On success the session is `Started(duration)` with a 500 ms repeating timer, the tracker has been primed once, and the token is stored and registered. A failure leaves the handlers and the running flag as they were. A failed priming removes the registered handler. |
| `PerfSession.Arm` | src/perf_session.rs:91-111 | Registration, priming and timer start all succeed exactly when their calls do. Then the session is running, primed once, and its fresh token is registered. A failed registration, priming or start returns that call's error, in that order; a failed priming or start removes the handler again. |
| `PerfSession.DeliverTicks` | src/perf_session.rs:91-104 | Unless a tick panics, the session's state is `Run` of the tick outcomes delivered so far. It stops at the first sent batch or when the ticks run out. A panic comes only from a panicking reading. |
| `PerfSession.RunOnThread` | src/perf_session.rs:39-59 | An enqueue failure is returned. A declined enqueue (`Ok(false)`) drops the sender unsent, so the first receive's `unwrap` panics. A start failure is returned as `StartOutcome`'s failure. Without panics or `Stop` failures and with enough good readings, the caller receives exactly the first TicksNeeded good readings in tick order, and the handler is removed again. |
| `DdaSink.WorkerStep` | src/sinks/dda.rs:56-68 | One iteration as written. It never touches the duplication and never sets the event. It counts at most one frame, and it does nothing unless the worker runs. |
| `DdaSink.StartStep` | src/sinks/dda.rs:46-75 | `start` keeps the counter and "a worker implies a duplication". With a duplication it is a no-op that succeeds. It changes the worker only by spawning a running one, after duplicating. |
| `DdaSink.JoinWorker` | src/sinks/dda.rs:80 | Joining an exited worker gives its result. A running worker's final check decides the result. Nothing else changes. |
| `DdaSink.StopStep` | src/sinks/dda.rs:77-88 | `stop` always ends without a thread handle and keeps the counter. With no worker it returns 0. A successful stop of a worker returns the counter and drops the duplication. A failed one keeps the duplication. A failed `signal()` returns its HRESULT. Otherwise a worker that ended with `Err(c)` makes `stop` return `Err(c)`. |
| `DdaSink.WorkerCountsOneFramePerAcquire` | src/sinks/dda.rs:56-68 | One iteration counts at most one frame. It counts one exactly when the worker runs, the check succeeds without seeing the signal, and a frame is acquired. |
| `DdaSink.WorkerFailureEndsIt` | src/sinks/dda.rs:56-68 | Past a clean check with no signal, any acquire failure ends the worker with that error. A frame followed by a failed release is counted and ends the worker with the release's error. A clean acquire and release count one frame and keep it running. |
| `DdaSink.WorkerErrorReachesStop` | src/sinks/dda.rs:56-88 | Whatever acquire or release error ended the worker, the next `stop` with a working `signal()` returns that error and leaves the sink wedged. |
| `DdaSink.WorkerOkOnlyOnSignal` | src/sinks/dda.rs:56-68 | The worker exits with Ok only by seeing the stop signal, which it consumes. |
| `DdaSink.OpsKeepInvAndCounter` | src/sinks/dda.rs:46-88 | Any interleaving of start, stop and worker iterations keeps "a worker implies a duplication" and never lowers the frame counter. |
| `DdaSink.StopTwiceReturnsZero` | src/sinks/dda.rs:77-88 | `stop` always takes the thread handle, so a second `stop` returns 0 and changes nothing. |
| `DdaSink.StopErrorWedges` | src/sinks/dda.rs:77-81 | A failing `stop` leaves the duplication in place with no worker to join. |
| `DdaSink.WedgedForever` | src/sinks/dda.rs:46-88 | Once wedged, a sink stays wedged: every `start` is a no-op reporting success and every `stop` returns 0. |
| `DdaSink.ReachableKept` | src/sinks/dda.rs:46-88 | Every interleaving of start, stop and worker iterations keeps "a worker implies a duplication", "the event is set only with a duplication and no worker", and "no worker has ended with Ok unseen". |
| `DdaSink.StartNeverSeesStaleSignal` | src/sinks/dda.rs:46-48 | On any sink built from a fresh one, whenever `start` passes the duplication check the event is not set, so its `is_signaled()` guard never answers true. |
| `DdaSink.StaleSignalSkipsOneStart` | src/sinks/dda.rs:47 | A leftover stop signal would make exactly one `start` a no-op, because its check consumes the signal, and the next `start` would spawn the worker. This starting state is unreachable from a fresh sink (`StartNeverSeesStaleSignal`). |
| `DdaSink.GoodItersCount` | src/sinks/dda.rs:56-68 | Clean iterations of a running worker add exactly their number to the counter and change nothing else. |
| `DdaSink.CaptureIntervalCountsFrames` | src/sinks/dda.rs:46-88 | A clean start, clean iterations and a clean stop return the counter grown by exactly the frames acquired, and leave the sink idle. |
| `DdaSink.RetryingDiffersOnlyOnTimeout` | src/sinks/dda.rs:58-61 | The iteration as written and the retrying iteration differ exactly on an acquire timeout met by a running worker that saw no signal. |
| `DdaSink.TimeoutEndsCapture` | src/sinks/dda.rs:58-61 | As written, one acquire timeout ends the worker. The next `stop` returns DXGI_ERROR_WAIT_TIMEOUT and leaves the sink wedged. |
| `DdaSink.WorkerStepRetrying` | src/sinks/dda.rs:56-68 | The corrected iteration moves only the worker's fields and counts at most one frame. A timeout met by a running worker that saw no signal changes nothing. |
| `DdaSink.RunRetrying` | src/sinks/dda.rs:56-68 | Corrected iterations in turn keep the duplication and never lower the counter. |
| `DdaSink.RetryingSurvivesTimeouts` | src/sinks/dda.rs:56-68 | With timeouts retried, quiet iterations keep the worker running and count exactly their frames. The next clean `stop` returns that count. |
| `DdaSink.FrameCounter.constructor` | src/sinks/dda.rs:40 | The shared counter starts at 0. |
| `DdaSink.CaptureWorker.Spawn` | src/sinks/dda.rs:49-70 | The worker starts running with its own event handle and the shared counter. |
| `DdaSink.CaptureWorker.Step` | src/sinks/dda.rs:56-68 | One loop iteration on the worker, the counter and the event object is exactly `WorkerStep`. |
| `DdaSink.CaptureWorker.Join` | src/sinks/dda.rs:80 | After the signal, joining gives the worker's result. A still-running worker finishes its check, consuming the signal. |
| `DdaSink.DdaCaptureSink.Create` | src/sinks/dda.rs:34-41 | A new sink has no duplication, no thread, a zero counter and an unsignalled event. |
| `DdaSink.DdaCaptureSink.Start` | src/sinks/dda.rs:46-75 | The new abstract state and result are `StartStep` of the old state. A running worker is kept. |
| `DdaSink.DdaCaptureSink.AdvanceWorker` | src/sinks/dda.rs:56-68 | The running worker's iteration moves the abstract state by `WorkerStep`. |
| `DdaSink.DdaCaptureSink.AdvanceWorkerBy` | src/sinks/dda.rs:56-68 | A sequence of iterations moves the abstract state by those `WorkerStep`s in turn. |
| `DdaSink.DdaCaptureSink.Stop` | src/sinks/dda.rs:77-88 | The new abstract state and result are `StopStep` of the old state. |
| `DdaSink.NewSink` | src/sinks/dda.rs:31-42 | Ok exactly when the event is created, giving a fresh idle sink. |
| `Dxgi.Enumerated` | src/windows_utils/dxgi.rs:12-23 | Collecting yields the answered slots in index order, stopping at the first gap or the end. |
| `Dxgi.IndexIterator.Begin` | src/windows_utils/dxgi.rs:25-32 | A new iterator starts at index 0 on its source. |
| `Dxgi.IndexIterator.Next` | src/windows_utils/dxgi.rs:12-23 | `next` returns the answer at the index and advances exactly when there was one. |
| `Dxgi.Collect` | src/main.rs:170 | Collecting the iterator gives exactly `Enumerated`, and the index ends after the last item. |
| `Dxgi.EnumeratedIsPrefix` | src/windows_utils/dxgi.rs:12-23 | The items before a gap or the end, answered slot by slot, are the only such sequence. |
| `Dxgi.NextTwice` | src/windows_utils/dxgi.rs:12-23 | The iterator is not fused. After `None` it asks the same index again. Otherwise two calls give two consecutive slots. |
| `Adapters.FromDxgiAdapter` | src/adapter.rs:17-31 | A `GetDesc1` failure is returned, and a bad name is E_NO_UNICODE_TRANSLATION. On success the name re-encodes to the description up to its first NUL and holds no NUL, and the LUID is copied. |
| `Adapters.AdapterNameRoundTrip` | src/adapter.rs:17-31 | An adapter whose description holds a name, NUL-terminated or filling the buffer, is listed under that name and its LUID. |
| `Adapters.FromEach` | src/adapter.rs:35-36 | One conversion per DXGI adapter, in order: the i-th is `from_dxgi_adapter` of the i-th adapter. |
| `Adapters.CollectAdapters` | src/main.rs:199-205 | The adapters loop yields one adapter per DXGI adapter in order, or the first conversion failure. |
| `Adapters.FromDxgiFactory` | src/adapter.rs:33-40 | Walking the factory's iterator yields one adapter per enumerated DXGI adapter in order, or the first conversion failure. |
| `Monitors.Resize` | src/monitor.rs:40 | `resize` gives length n, keeps the first elements and pads with the fill value. |
| `Monitors.QueryDisplayConfig` | src/monitor.rs:29-38 | A successful query wrote all active paths into a buffer large enough for them. |
| `Monitors.PathInfosOf` | src/monitor.rs:21-42 | Success exactly when both calls succeed and the paths fit the sized buffer, giving those paths. A sizes failure is its HRESULT. It never panics. |
| `Monitors.GetPathInfos` | src/monitor.rs:21-42 | The result is `PathInfosOf`: the sizes error, or the query error, as HRESULTs. On success it is exactly the paths the query wrote, with no default padding. It never panics. |
| `Monitors.PathNames` | src/monitor.rs:48-87 | For one path, both names were queried successfully and are the decoded buffers up to their first NUL. |
| `Monitors.AllPathNames` | src/monitor.rs:48-88 | One name lookup per path, in order: the i-th is `PathNames` of the i-th path. |
| `Monitors.NameMap` | src/monitor.rs:46-90 | Every device name inserted is a key, and the last pair inserted is in the map. |
| `Monitors.NameMapSnoc` | src/monitor.rs:88 | One more path is one more insert into the map. |
| `Monitors.NameMapLastWins` | src/monitor.rs:44-91 | The keys are exactly the device names of the paths. Each maps to the display name of the last path with that device name. |
| `Monitors.InsertPathNames` | src/monitor.rs:46-90 | The insert loop builds the name map of all path names, or returns the first failure. |
| `Monitors.NameMapOf` | src/monitor.rs:44-91 | A failure to get the paths is returned as is. With the paths in hand it never panics. On success, every path's names were obtained and its device name is a key. |
| `Monitors.BuildNameMap` | src/monitor.rs:44-91 | The result is `NameMapOf` applied to the paths result. A sizes or query failure is returned as its HRESULT. Otherwise it is the map of all path names or the first failure. |
| `Monitors.HandleList.constructor` | src/monitor.rs:95 | The handle list starts empty. |
| `Monitors.HandleList.OnMonitor` | src/monitor.rs:107-116 | The callback appends the handle and asks to go on. |
| `Monitors.GetAllDisplayHandles` | src/monitor.rs:93-105 | All monitor handles in enumeration order, or the enumeration's error through `BOOL::ok()`: `HRESULT::from_win32` of the thread's Win32 last error. |
| `Monitors.MonitorFor` | src/monitor.rs:132-166 | It panics exactly when the device name decodes but is not in the map. On success the monitor carries its handle, its decoded device name, the mapped display name and the frequency. |
| `Monitors.MonitorsFor` | src/monitor.rs:132-166 | One monitor description per handle, in order: the i-th is `MonitorFor` of the i-th handle with its own query answers. |
| `Monitors.DescribeAll` | src/monitor.rs:130-167 | The describe loop gives one monitor per handle in order, or the first failure. |
| `Monitors.EnumerateAll` | src/monitor.rs:126-170 | A name-map failure is returned first. Then the `EnumDisplayMonitors` error, as the HRESULT made from its last error. Otherwise the result is one monitor per handle in order, or the first failure. Every success lists the handles in order. |
| `Window.MousePosition` | src/window.rs:177-181 | Both coordinates are 16-bit values. |
| `Window.MousePositionRoundTrip` | src/window.rs:177-181 | Packing x low and y high is undone. |
| `Window.MousePositionIsLow32Bits` | src/window.rs:177-181 | Even for a negative `LPARAM`, the two words together are its low 32 bits. |
| `Window.GetWindowSize` | src/window.rs:164-175 | A `GetClientRect` failure is returned. Otherwise width and height span the client rectangle. |
| `Window.MessageHandler` | src/window.rs:92-139 | WM_DESTROY posts quit and returns 0. WM_DPICHANGED moves the window to the suggested rectangle and returns 0. A null rectangle or a failed size panics. Every other message does nothing and returns `DefWindowProcW`'s result. |
| `Benchmark.Sum` | src/main.rs:265 | The sum of no readings is 0.0, and of one reading is that reading. |
| `Benchmark.Average` | src/main.rs:264-269 | 0.0 for an empty series. Otherwise the average times the length is the sum. |
| `Benchmark.SumBounds` | src/main.rs:265 | When every reading lies in [lo, hi], the sum lies between length × lo and length × hi. |
| `Benchmark.AverageBounds` | src/main.rs:264-269 | An average lies between the smallest and largest reading. |
| `Benchmark.Averaged` | src/main.rs:263-271 | Each series, unchanged and in order, paired with its average. |
| `Benchmark.RunTest` | src/main.rs:254-273 | The session's error is returned. Otherwise each series is paired with its average, in order. |
| `Benchmark.PrintAverages` | src/main.rs:275-280 | One line (index, average, adapter name) per index up to the shorter list. |
| `Benchmark.RunAndPrintTest` | src/main.rs:282-298 | Start, measure, stop, print and sleep, in that order. Each failure ends the pass with that error at that point. The sink's state is the specification's at every exit, and success returns the averaged series. |
| `Benchmark.TruncDiv` | src/main.rs:92-93 | Rust's `i32` division by a positive divisor rounds toward zero: the remainder `a - q*b` is smaller than the divisor in magnitude and has the sign of the dividend. |
| `Benchmark.WindowPlacement` | src/main.rs:81-93 | A `GetDpiForMonitor` failure is returned. Differing DPIs panic (`assert_eq!`). Otherwise the window is a square of side `MulDiv(500, dpi, 96)`. |
| `Benchmark.Centered` | src/main.rs:88-93 | The window is centred in the work area to within one pixel on each axis. |
| `Benchmark.FindMonitorIndex` | src/main.rs:68-71 | The index of the first monitor with the handle. A missing handle panics. |
| `Benchmark.FindOutput` | src/main.rs:174-180 | The first output whose description names the monitor. A failed `GetDesc` does not match. |
| `Benchmark.FindAdapterForMonitor` | src/main.rs:171-186 | The first adapter in enumeration order with an output showing the monitor, and that output's index. If there is none, it panics. |

## Left out

- `sinks/wgc.rs`, `sinks/mod.rs`, `cli.rs`, `windows_utils/d3d.rs`,
  `windows_utils/composition.rs`, `windows_utils/dwrite.rs`, the `pdh` and `pid`
  modules, and main.rs's composition and animation setup are not part of this
  model. The counters `add_perf_counters` finds for a path are a parameter of
  `NewTracker`, and the DWM pid is an input.
- `PerfTracker::close` (src/perf.rs:71-73) closes the query in the `pdh`
  module, and nothing in the modelled code calls it.
- Threads are modelled as interleavings. The UI thread's ticks are a
  sequence given to `RunOnThread`. The capture worker's loop iterations are
  steps interleaved with `start` and `stop`. The stop signal is read only at
  the top of the loop, so an iteration that straddles it equals one taken
  just before it.
- `RunOnThread` returns `None` when the given ticks do not complete the
  session: the real caller would still be blocked in `recv`.
- `RunOnThread`: a panic in a tick handler aborts the process. The handler's
  `Err` results are dropped by the dispatcher. The channel's `unwrap`s are
  modelled as never failing, because the receiver outlives every send; the
  exception is a declined enqueue, modelled as the first receive's panic.
- `Events.KernelWait`: an infinite wait is taken to return once the event is
  signalled. The hang when nobody signals is not modelled.
- Thread spawn failure (a panic in `std::thread::spawn`) is not modelled. A
  worker left detached by a failed `stop` takes no further steps in the model.
- `Benchmark.RunTest`: the session's result is a parameter shaped as one
  series per adapter, because main.rs uses it that way. perf_session.rs's
  `run_on_thread` takes a different argument list and returns a single series,
  and the two files do not agree.
- `Benchmark.RunAndPrintTest` is modelled with the DDA sink only.
- `Benchmark.WindowPlacement`: `MulDiv` is a parameter. The `i32` overflow
  of the work-area subtraction is not modelled.
- `Window.GetWindowSize` and `Window.MessageHandler`: the `i32` overflow of
  `right - left` and `bottom - top` is not modelled; `GetClientRect` reports
  left = top = 0, and the suggested DPI rectangle is the system's own.
- `DdaSink.CaptureWorker.Step`: the frame counter is a `nat`. The `usize`
  wrap-around of `fetch_add` is not modelled.
- Rounding of `f64` arithmetic is not modelled: readings and averages are reals.
  Printing, the rest-period sleep and `Window::new` (class registration,
  window creation, `wnd_proc`'s pointer plumbing) are left out.
- Display-mode buffers in `get_display_config_path_infos` are not modelled. Only
  the path buffer's size and contents matter to the result.

## Findings

| source | as written | input that shows it | evidently intended | confidence | as-written member | corrected member |
|---|---|---|---|---|---|---|
| src/sinks/dda.rs:58-61 | `AcquireNextFrame(100, ..)?` ends the capture worker on any error, including DXGI_ERROR_WAIT_TIMEOUT. The next `stop` then returns that error, and the sink stays wedged with its duplication. | A screen that shows no new frame for 100 ms while the DDA sink is started. | A timeout means "no frame yet", so the worker loops back to the stop-event check and keeps counting. | medium, not executed | `DdaSink.TimeoutEndsCapture` | `DdaSink.RetryingSurvivesTimeouts` |

The sink classes and every other lemma follow the source: the iteration as
written is `DdaSink.WorkerStep`, which `DdaSink.TimeoutEndsCapture` uses. The
corrected iteration is `DdaSink.WorkerStepRetrying`, and `DdaSink.RunRetrying`
runs it. `DdaSink.RetryingDiffersOnlyOnTimeout` proves that the two differ only
on that timeout.
