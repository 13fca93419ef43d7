/** The benchmark driver (src/main.rs): where the window goes, which monitor
    and adapter are measured, how each measured series is averaged and
    reported, and the order of one capture pass. */
module Benchmark {
  import opened Win
  import opened Dxgi
  import Monitors
  import Adapters
  import DdaSink

  // ---------------------------------------------------------------------------
  // Averages.

  /** `samples.iter().sum()`, left to right. */
  function Sum(s: seq<real>): (r: real)
    ensures s == [] ==> r == 0.0
    ensures |s| == 1 ==> r == s[0]
    decreases |s|
  {
    if s == [] then 0.0 else Sum(s[..|s| - 1]) + s[|s| - 1]
  }

  /** The average `run_test` pairs with a series: 0.0 for an empty series,
      otherwise the sum over the length. */
  function Average(s: seq<real>): (r: real)
    ensures |s| == 0 ==> r == 0.0
    ensures |s| > 0 ==> r * |s| as real == Sum(s)
  {
    if |s| != 0 then Sum(s) / |s| as real else 0.0
  }

  lemma {:induction false} SumBounds(s: seq<real>, lo: real, hi: real)
    requires forall i :: 0 <= i < |s| ==> lo <= s[i] <= hi
    ensures |s| as real * lo <= Sum(s) <= |s| as real * hi
    decreases |s|
  {
    if s != [] {
      SumBounds(s[..|s| - 1], lo, hi);
    }
  }

  /** An average lies between the smallest and the largest reading, so a
      series of utilisation percentages averages to a percentage. */
  lemma AverageBounds(s: seq<real>, lo: real, hi: real)
    requires |s| > 0
    requires forall i :: 0 <= i < |s| ==> lo <= s[i] <= hi
    ensures lo <= Average(s) <= hi
  {
    SumBounds(s, lo, hi);
    var n := |s| as real;
    assert Average(s) * n == Sum(s);
    assert (Average(s) - lo) * n >= 0.0;
    assert (hi - Average(s)) * n >= 0.0;
  }

  /** The (average, series) pairs `run_test` builds. */
  function Averaged(series: seq<seq<real>>): (r: seq<(real, seq<real>)>)
    ensures |r| == |series|
    ensures forall i :: 0 <= i < |series| ==> r[i] == (Average(series[i]), series[i])
  {
    seq(|series|, i requires 0 <= i < |series| => (Average(series[i]), series[i]))
  }

  /** `run_test`: one series per adapter from the session (`?`), each paired
      with its average, in the same order and unchanged. */
  method RunTest(session: Result<seq<seq<real>>>) returns (r: Result<seq<(real, seq<real>)>>)
    ensures !session.Ok? ==> r == session.PropagateFailure()
    ensures session.Ok? ==> r == Ok(Averaged(session.value))
  {
    var samples :- session;
    var result := [];
    var i := 0;
    while i < |samples|
      invariant 0 <= i <= |samples| && result == Averaged(samples[..i])
    {
      var series := samples[i];
      var average := if |series| != 0 then Sum(series) / |series| as real else 0.0;
      result := result + [(average, series)];
      i := i + 1;
      assert Averaged(samples[..i]) == Averaged(samples[..i - 1]) + [(average, series)];
    }
    assert samples[..i] == samples;
    r := Ok(result);
  }

  /** `print_averages`: one line (index, average, adapter name) per index
      up to the shorter of the two lists. */
  method PrintAverages(adapters: seq<Adapters.Adapter>, samples: seq<(real, seq<real>)>)
    returns (lines: seq<(nat, real, string)>)
    ensures |lines| == if |adapters| < |samples| then |adapters| else |samples|
    ensures forall i :: 0 <= i < |lines| ==> lines[i] == (i, samples[i].0, adapters[i].name)
  {
    lines := [];
    var i := 0;
    while i < |adapters| && i < |samples|
      invariant 0 <= i <= |adapters| && i <= |samples| && |lines| == i
      invariant forall j :: 0 <= j < i ==> lines[j] == (j, samples[j].0, adapters[j].name)
    {
      lines := lines + [(i, samples[i].0, adapters[i].name)];
      i := i + 1;
    }
  }

  // ---------------------------------------------------------------------------
  // One capture pass.

  datatype Step = SinkStarted | Measured | SinkStopped | Printed | Slept

  const PASS_STEPS: seq<Step> := [SinkStarted, Measured, SinkStopped, Printed, Slept]

  /** `run_and_print_test` with the desktop-duplication sink: start the sink,
      measure (the worker capturing `captured` meanwhile), stop the sink,
      print, sleep; each `?` abandons the steps after it. */
  method RunAndPrintTest(sink: DdaSink.DdaCaptureSink, startEnv: DdaSink.StartEnv, session: Result<seq<seq<real>>>,
                         captured: seq<DdaSink.IterEnv>, stopEnv: DdaSink.StopEnv, adapters: seq<Adapters.Adapter>)
    returns (r: Result<seq<(real, seq<real>)>>, trace: seq<Step>)
    requires sink.Valid()
    modifies sink, sink.stopEvent.obj, sink.numFrames, if sink.captureThread.Some? then {sink.captureThread.value} else {}
    ensures sink.Valid()
    ensures 1 <= |trace| && trace <= PASS_STEPS
    ensures r.Ok? <==> trace == PASS_STEPS
    ensures var (s1, r1) := DdaSink.StartStep(old(sink.Abs()), startEnv);
      var s2 := DdaSink.ApplyAll(s1, DdaSink.Workers(captured));
      var (s3, r3) := DdaSink.StopStep(s2, stopEnv);
      if !r1.Ok? then r == r1.PropagateFailure() && trace == PASS_STEPS[..1] && sink.Abs() == s1
      else if !session.Ok? then r == session.PropagateFailure() && trace == PASS_STEPS[..2] && sink.Abs() == s2
      else if !r3.Ok? then r == r3.PropagateFailure() && trace == PASS_STEPS[..3] && sink.Abs() == s3
      else r == Ok(Averaged(session.value)) && sink.Abs() == s3
  {
    trace := [SinkStarted];
    var started := sink.Start(startEnv);
    if !started.Ok? {
      return started.PropagateFailure(), trace;
    }
    sink.AdvanceWorkerBy(captured);
    trace := trace + [Measured];
    var samples := RunTest(session);
    if !samples.Ok? {
      return samples.PropagateFailure(), trace;
    }
    trace := trace + [SinkStopped];
    var stopped := sink.Stop(stopEnv);
    if !stopped.Ok? {
      return stopped.PropagateFailure(), trace;
    }
    var _ := PrintAverages(adapters, samples.value);
    trace := trace + [Printed];
    trace := trace + [Slept];
    r := samples;
  }

  // ---------------------------------------------------------------------------
  // Window placement.

  /** Rust's `/` on `i32`: the quotient truncated toward zero. */
  function TruncDiv(a: int, b: int): (q: int)
    requires b > 0
    ensures a >= 0 ==> 0 <= a - q * b < b
    ensures a < 0 ==> -b < a - q * b <= 0
  {
    if a >= 0 then a / b else -((-a) / b)
  }

  /** A `RECT`, here the monitor's work area. */
  datatype Rect = Rect(left: int, top: int, right: int, bottom: int)

  datatype Placement = Placement(x: int, y: int, width: int, height: int)

  /** `dpi as i32`: the bits of a `u32` read as a signed value. */
  function AsI32(v: u32): i32 {
    if v < 0x8000_0000 then v else v - TWO_32
  }

  /** Where the window goes: the effective DPI must be the same both ways
      (`assert_eq!`), the side is `MulDiv(500, dpi, 96)` (`mulDiv` is that
      call), and the window is centred in the work area. */
  function WindowPlacement(work: Rect, dpiStatus: Status, dpiX: u32, dpiY: u32, mulDiv: (int, int, int) -> int)
    : (r: Result<Placement>)
    ensures dpiStatus != S_OK ==> r == Err(dpiStatus)
    ensures r.Panic? <==> dpiStatus == S_OK && dpiX != dpiY
    ensures r.Ok? <==> dpiStatus == S_OK && dpiX == dpiY
    ensures r.Ok? ==> r.value.width == r.value.height == mulDiv(500, AsI32(dpiX), 96)
  {
    if dpiStatus != S_OK then Err(dpiStatus)
    else if dpiX != dpiY then Panic
    else
      var side := mulDiv(500, AsI32(dpiX), 96);
      var workWidth := work.right - work.left;
      var workHeight := work.bottom - work.top;
      Ok(Placement(TruncDiv(workWidth - side, 2) + work.left, TruncDiv(workHeight - side, 2) + work.top, side, side))
  }

  /** The window is centred: the gaps left and right of it (and above and
      below) differ by at most one pixel. Truncation toward zero puts the odd
      pixel on the right when the window fits and on the left when it is
      wider than the work area. */
  lemma Centered(work: Rect, dpi: u32, mulDiv: (int, int, int) -> int)
    ensures var p := WindowPlacement(work, S_OK, dpi, dpi, mulDiv).value;
      var leftGap := p.x - work.left;
      var rightGap := work.right - (p.x + p.width);
      var topGap := p.y - work.top;
      var bottomGap := work.bottom - (p.y + p.height);
      (work.right - work.left >= p.width ==> 0 <= rightGap - leftGap <= 1)
      && (work.right - work.left < p.width ==> -1 <= rightGap - leftGap <= 0)
      && (work.bottom - work.top >= p.height ==> 0 <= bottomGap - topGap <= 1)
      && (work.bottom - work.top < p.height ==> -1 <= bottomGap - topGap <= 0)
  {
  }

  // ---------------------------------------------------------------------------
  // Choosing the monitor and the adapter.

  /** `position(|x| x.handle() == monitor_handle).expect(..)`: the first
      monitor with that handle; none is a panic. */
  function FindMonitorIndex(monitors: seq<Monitors.Monitor>, handle: int): (r: Result<nat>)
    ensures !r.Err?
    ensures r.Panic? <==> forall i :: 0 <= i < |monitors| ==> monitors[i].handle != handle
    ensures r.Ok? ==> (r.value < |monitors| && monitors[r.value].handle == handle
      && forall i :: 0 <= i < r.value ==> monitors[i].handle != handle)
  {
    if monitors == [] then Panic
    else if monitors[0].handle == handle then Ok(0)
    else
      var rest := FindMonitorIndex(monitors[1..], handle);
      if rest.Ok? then Ok(rest.value + 1) else rest
  }

  /** An output whose description names the monitor; a failed `GetDesc`
      counts as no match. */
  predicate ShowsMonitor(o: DxgiOutput, monitor: int) {
    o.desc.Ok? && o.desc.value.monitor == monitor
  }

  /** `iter_outputs().find(..)`: the index of the first output showing the monitor. */
  function FindOutput(outputs: seq<DxgiOutput>, monitor: int): (r: Option<nat>)
    ensures r.None? <==> forall j :: 0 <= j < |outputs| ==> !ShowsMonitor(outputs[j], monitor)
    ensures r.Some? ==> (r.value < |outputs| && ShowsMonitor(outputs[r.value], monitor)
      && forall j :: 0 <= j < r.value ==> !ShowsMonitor(outputs[j], monitor))
  {
    if outputs == [] then None
    else if ShowsMonitor(outputs[0], monitor) then Some(0)
    else
      var rest := FindOutput(outputs[1..], monitor);
      if rest.Some? then Some(rest.value + 1) else None
  }

  /** The first output of the adapter's enumerated outputs showing the monitor. */
  function OutputShowing(a: DxgiAdapter, monitor: int): Option<nat> {
    FindOutput(Enumerated(a.outputs), monitor)
  }

  /** The `find_map(..).expect(..)` over the collected adapters: the index of
      the first adapter, in enumeration order, with an output showing the
      monitor, and that output's index; none is a panic. */
  function FindAdapterForMonitor(adapters: seq<DxgiAdapter>, monitor: int): (r: Result<(nat, nat)>)
    ensures !r.Err?
    ensures r.Panic? <==> forall i :: 0 <= i < |adapters| ==> OutputShowing(adapters[i], monitor).None?
    ensures r.Ok? ==> (r.value.0 < |adapters| && OutputShowing(adapters[r.value.0], monitor) == Some(r.value.1)
      && forall i :: 0 <= i < r.value.0 ==> OutputShowing(adapters[i], monitor).None?)
  {
    if adapters == [] then Panic
    else
      var found := OutputShowing(adapters[0], monitor);
      if found.Some? then Ok((0, found.value))
      else
        var rest := FindAdapterForMonitor(adapters[1..], monitor);
        if rest.Ok? then Ok((rest.value.0 + 1, rest.value.1)) else rest
  }
}
