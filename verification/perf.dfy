/** The GPU-engine utilization tracker (src/perf.rs): builds the PDH counter
    path for a process (and optionally one adapter), opens a query on it, and
    reads the summed utilization of every matching engine instance. */
module Perf {
  import opened Win

  // ---------------------------------------------------------------------------
  // Counter path: `format!` with `{}` for the pid and `{:#010X}` for the LUID.

  const PATH_PREFIX: string := "\\GPU Engine(pid_"
  const LUID_TAG: string := "_luid_"
  const PATH_SUFFIX: string := "*engtype_3D)\\Utilization Percentage"

  predicate IsDigit(c: char) { '0' <= c <= '9' }
  predicate IsUpperHexDigit(c: char) { '0' <= c <= '9' || 'A' <= c <= 'F' }

  function DigitValue(c: char): nat
    requires IsUpperHexDigit(c)
  {
    if c <= '9' then (c - '0') as nat else (c - 'A') as nat + 10
  }

  function HexChar(d: nat): (c: char)
    requires d < 16
    ensures IsUpperHexDigit(c) && DigitValue(c) == d
  {
    if d < 10 then ('0' as int + d) as char else ('A' as int + d - 10) as char
  }

  /** `{}` on an unsigned integer: decimal digits, no leading zero. */
  function Decimal(n: nat): (s: string)
    ensures |s| >= 1 && forall i :: 0 <= i < |s| ==> IsDigit(s[i])
    ensures |s| > 1 ==> s[0] != '0'
  {
    if n < 10 then [HexChar(n)] else Decimal(n / 10) + [HexChar(n % 10)]
  }

  /** The value of a string of decimal digits. */
  function ParseDecimal(s: string): nat
    requires forall i :: 0 <= i < |s| ==> IsDigit(s[i])
  {
    if s == [] then 0
    else
      var last := s[|s| - 1];
      assert IsDigit(last);
      ParseDecimal(s[..|s| - 1]) * 10 + DigitValue(last)
  }

  lemma {:induction false} ParseDecimalOfDecimal(n: nat)
    ensures ParseDecimal(Decimal(n)) == n
  {
    if n >= 10 {
      var s := Decimal(n);
      assert s[..|s| - 1] == Decimal(n / 10);
      ParseDecimalOfDecimal(n / 10);
    }
  }

  /** The `k` lowest hexadecimal digits of `v`, most significant first, in
      upper case and zero-padded. */
  function HexDigits(v: nat, k: nat): (s: string)
    ensures |s| == k && forall i :: 0 <= i < |s| ==> IsUpperHexDigit(s[i])
  {
    if k == 0 then [] else HexDigits(v / 16, k - 1) + [HexChar(v % 16)]
  }

  function ParseHex(s: string): nat
    requires forall i :: 0 <= i < |s| ==> IsUpperHexDigit(s[i])
  {
    if s == [] then 0 else ParseHex(s[..|s| - 1]) * 16 + DigitValue(s[|s| - 1])
  }

  function Pow16(k: nat): (p: nat)
    ensures p >= 1
  {
    if k == 0 then 1 else 16 * Pow16(k - 1)
  }

  lemma {:induction false} ParseHexOfHexDigits(v: nat, k: nat)
    requires v < Pow16(k)
    ensures ParseHex(HexDigits(v, k)) == v
  {
    if k > 0 {
      var s := HexDigits(v, k);
      assert s[..|s| - 1] == HexDigits(v / 16, k - 1);
      ParseHexOfHexDigits(v / 16, k - 1);
    }
  }

  lemma Pow16Of8()
    ensures Pow16(8) == TWO_32
  {
    assert Pow16(4) == 0x1_0000 by {
      assert Pow16(2) == 0x100;
    }
    assert Pow16(6) == 0x100_0000;
  }

  /** A 32-bit field as `{:#010X}` prints it: `0x` and then exactly eight
      upper-case hexadecimal digits, zero-padded. */
  function HexField(v: u32): (s: string)
    ensures |s| == 10 && s[..2] == "0x"
    ensures forall i :: 2 <= i < 10 ==> IsUpperHexDigit(s[i])
  {
    "0x" + HexDigits(v, 8)
  }

  /** The bit pattern of an `i32`: hex formatting of a negative `HighPart`
      prints its 32-bit two's complement. */
  function Bits32(x: i32): (b: u32)
    ensures (b - x) % TWO_32 == 0
  {
    if x < 0 then x + TWO_32 else x
  }

  function FromBits32(b: u32): i32 {
    if b >= 0x8000_0000 then b - TWO_32 else b
  }

  /** The counter's fixed text around the process and adapter part. */
  predicate Framed(p: string) {
    |p| >= |PATH_PREFIX| + |PATH_SUFFIX|
    && p[..|PATH_PREFIX|] == PATH_PREFIX && p[|p| - |PATH_SUFFIX|..] == PATH_SUFFIX
  }

  /** The counter path `PerfTracker::new` asks for. */
  function CounterPath(pid: u32, luid: Option<Luid>): (p: string)
    ensures Framed(p)
    ensures luid.None? <==> |p| == |PATH_PREFIX| + |Decimal(pid)| + |PATH_SUFFIX|
  {
    PATH_PREFIX + Decimal(pid) + LuidPart(luid) + PATH_SUFFIX
  }

  /** The `_luid_<High>_<Low>` part of the path, present only with a LUID. */
  function LuidPart(luid: Option<Luid>): string
  {
    match luid
    case Some(l) => LUID_TAG + HexField(Bits32(l.highPart)) + "_" + HexField(l.lowPart)
    case None => ""
  }

  /** The number of leading decimal digits of `s`. */
  function DigitRun(s: string): (n: nat)
    ensures n <= |s|
    ensures forall i :: 0 <= i < n ==> IsDigit(s[i])
    ensures n < |s| ==> !IsDigit(s[n])
  {
    if s == [] || !IsDigit(s[0]) then 0 else 1 + DigitRun(s[1..])
  }

  predicate IsHexField(s: string) {
    |s| == 10 && s[..2] == "0x" && forall i :: 2 <= i < 10 ==> IsUpperHexDigit(s[i])
  }

  function ParseHexField(s: string): u32
    requires IsHexField(s)
  {
    var v := ParseHex(s[2..]);
    if v < TWO_32 then v else 0
  }

  /** Reads a counter path back into the pid and LUID it names; the reference
      against which `CounterPath` is checked. */
  function ParseCounterPath(path: string): (r: Option<(nat, Option<Luid>)>)
    ensures r.Some? ==> Framed(path) && |path| > |PATH_PREFIX| + |PATH_SUFFIX|
  {
    if |path| < |PATH_PREFIX| + |PATH_SUFFIX|
      || path[..|PATH_PREFIX|] != PATH_PREFIX
      || path[|path| - |PATH_SUFFIX|..] != PATH_SUFFIX then None
    else ParseMiddle(path[|PATH_PREFIX|..|path| - |PATH_SUFFIX|])
  }

  /** The part between the prefix and the suffix: decimal digits, then
      nothing or a LUID part. */
  function ParseMiddle(middle: string): Option<(nat, Option<Luid>)>
  {
    var k := DigitRun(middle);
    var rest := middle[k..];
    if k == 0 then None
    else if rest == [] then Some((ParseDecimal(middle[..k]), None))
    else
      match ParseLuidPart(rest)
      case Some(l) => Some((ParseDecimal(middle[..k]), Some(l)))
      case None => None
  }

  function ParseLuidPart(s: string): Option<Luid>
  {
    if |s| == 27 && s[..6] == LUID_TAG && s[16] == '_' && IsHexField(s[6..16]) && IsHexField(s[17..]) then
      Some(Luid(ParseHexField(s[17..]), FromBits32(ParseHexField(s[6..16]))))
    else None
  }

  lemma HexFieldRoundTrip(v: u32)
    ensures IsHexField(HexField(v)) && ParseHexField(HexField(v)) == v
  {
    Pow16Of8();
    ParseHexOfHexDigits(v, 8);
    assert HexField(v)[2..] == HexDigits(v, 8);
  }

  lemma LuidPartRoundTrip(l: Luid)
    ensures ParseLuidPart(LuidPart(Some(l))) == Some(l)
  {
    var hi := HexField(Bits32(l.highPart));
    var lo := HexField(l.lowPart);
    var s := LuidPart(Some(l));
    assert s == LUID_TAG + hi + "_" + lo;
    HexFieldRoundTrip(Bits32(l.highPart));
    HexFieldRoundTrip(l.lowPart);
    assert s[..6] == LUID_TAG;
    assert s[6..16] == hi;
    assert s[17..] == lo;
  }

  lemma StripPrefixSuffix(middle: string)
    ensures var path := PATH_PREFIX + middle + PATH_SUFFIX;
      ParseCounterPath(path) == ParseMiddle(middle)
  {
    var path := PATH_PREFIX + middle + PATH_SUFFIX;
    assert path[..|PATH_PREFIX|] == PATH_PREFIX;
    assert path[|path| - |PATH_SUFFIX|..] == PATH_SUFFIX;
    assert path[|PATH_PREFIX|..|path| - |PATH_SUFFIX|] == middle;
  }

  /** The pid and LUID can be read back from the counter path: the path names
      exactly the process and adapter it was built for, with the LUID's high
      half recovered from its two's-complement digits. */
  lemma CounterPathRoundTrip(pid: u32, luid: Option<Luid>)
    ensures ParseCounterPath(CounterPath(pid, luid)) == Some((pid, luid))
  {
    var middle := Decimal(pid) + LuidPart(luid);
    assert CounterPath(pid, luid) == PATH_PREFIX + middle + PATH_SUFFIX;
    StripPrefixSuffix(middle);
    MiddleRoundTrip(pid, luid);
  }

  /** The part between the fixed texts reads back to the pid and LUID. */
  lemma MiddleRoundTrip(pid: u32, luid: Option<Luid>)
    ensures ParseMiddle(Decimal(pid) + LuidPart(luid)) == Some((pid, luid))
  {
    var dec := Decimal(pid);
    var tail := LuidPart(luid);
    var middle := dec + tail;
    DigitRunStops(dec, tail);
    assert middle[..|dec|] == dec;
    assert middle[|dec|..] == tail;
    ParseDecimalOfDecimal(pid);
    if luid.Some? {
      LuidPartRoundTrip(luid.value);
    }
  }

  lemma {:induction false} DigitRunStops(digits: string, tail: string)
    requires forall i :: 0 <= i < |digits| ==> IsDigit(digits[i])
    requires tail == [] || tail[0] == '_'
    ensures DigitRun(digits + tail) == |digits|
  {
    if digits != [] {
      assert (digits + tail)[1..] == digits[1..] + tail;
      DigitRunStops(digits[1..], tail);
    }
  }

  /** Two different (pid, LUID) requests never share a counter path. */
  lemma CounterPathInjective(pid1: u32, luid1: Option<Luid>, pid2: u32, luid2: Option<Luid>)
    requires CounterPath(pid1, luid1) == CounterPath(pid2, luid2)
    ensures pid1 == pid2 && luid1 == luid2
  {
    CounterPathRoundTrip(pid1, luid1);
    CounterPathRoundTrip(pid2, luid2);
  }

  // ---------------------------------------------------------------------------
  // The query and its counters.

  const PDH_CSTATUS_VALID_DATA: int := 0

  /** An opaque PDH counter handle. */
  type CounterHandle = nat

  /** What `PdhGetFormattedCounterValue` gives for one counter: its return
      status, the counter's `CStatus`, and the value as a double. */
  datatype CounterReading = CounterReading(status: Status, cStatus: int, value: real)

  /** The loop of `get_current_value` from `acc` on: each counter's call must
      succeed (`?`) and its data must be valid (`assert_eq!`, a panic
      otherwise); the values are added in handle order. */
  function Accumulate(handles: seq<CounterHandle>, read: CounterHandle -> CounterReading, acc: real): (r: Result<real>)
    ensures r.Ok? <==> CleanBefore(handles, read, |handles|)
  {
    if handles == [] then Ok(acc)
    else
      var c := read(handles[0]);
      if c.status != S_OK then Err(c.status)
      else if c.cStatus != PDH_CSTATUS_VALID_DATA then Panic
      else Accumulate(handles[1..], read, acc + c.value)
  }

  /** Everything `get_current_value` can return: the collection error first,
      then the per-counter loop starting from 0. */
  function CurrentValue(collectStatus: Status, handles: seq<CounterHandle>, read: CounterHandle -> CounterReading)
    : (r: Result<real>)
    ensures collectStatus != S_OK ==> r == Err(collectStatus)
    ensures r.Ok? <==> collectStatus == S_OK && CleanBefore(handles, read, |handles|)
  {
    if collectStatus != S_OK then Err(collectStatus) else Accumulate(handles, read, 0.0)
  }

  /** The plain sum of the counters' values, in handle order. */
  function SumValues(handles: seq<CounterHandle>, read: CounterHandle -> CounterReading): real
  {
    if handles == [] then 0.0 else read(handles[0]).value + SumValues(handles[1..], read)
  }

  predicate ReadsCleanly(c: CounterReading) {
    c.status == S_OK && c.cStatus == PDH_CSTATUS_VALID_DATA
  }

  /** When every counter reads cleanly the loop adds up all their values. */
  lemma {:induction false} AccumulateSums(handles: seq<CounterHandle>, read: CounterHandle -> CounterReading, acc: real)
    requires forall i :: 0 <= i < |handles| ==> ReadsCleanly(read(handles[i]))
    ensures Accumulate(handles, read, acc) == Ok(acc + SumValues(handles, read))
  {
    if handles != [] {
      AccumulateSums(handles[1..], read, acc + read(handles[0]).value);
    }
  }

  /** Every counter before index `k` reads cleanly. */
  predicate CleanBefore(handles: seq<CounterHandle>, read: CounterHandle -> CounterReading, k: nat)
    requires k <= |handles|
  {
    forall j :: 0 <= j < k ==> ReadsCleanly(read(handles[j]))
  }

  /** What a counter that does not read cleanly makes of the reading. */
  function BadCounter(c: CounterReading): Result<real> {
    if c.status != S_OK then Err(c.status) else Panic
  }

  /** When the loop does not return a value, the first counter that does not
      read cleanly decides: a failed call gives its status as the error, an
      invalid `CStatus` panics; every counter before it read cleanly. */
  lemma {:induction false} AccumulateStopsAtFirstBadCounter(handles: seq<CounterHandle>, read: CounterHandle -> CounterReading, acc: real)
    requires !Accumulate(handles, read, acc).Ok?
    ensures exists k :: (0 <= k < |handles| && !ReadsCleanly(read(handles[k])) && CleanBefore(handles, read, k)
                         && Accumulate(handles, read, acc) == BadCounter(read(handles[k])))
  {
    var c := read(handles[0]);
    if ReadsCleanly(c) {
      var tail := handles[1..];
      assert Accumulate(handles, read, acc) == Accumulate(tail, read, acc + c.value);
      AccumulateStopsAtFirstBadCounter(tail, read, acc + c.value);
      var k :| 0 <= k < |tail| && !ReadsCleanly(read(tail[k])) && CleanBefore(tail, read, k)
        && Accumulate(tail, read, acc + c.value) == BadCounter(read(tail[k]));
      assert handles[k + 1] == tail[k];
      assert CleanBefore(handles, read, k + 1) by {
        forall j | 0 <= j < k + 1 ensures ReadsCleanly(read(handles[j])) {
          if j > 0 { assert handles[j] == tail[j - 1]; }
        }
      }
    } else {
      assert CleanBefore(handles, read, 0);
    }
  }

  /** With no counters the reading is exactly 0 once the collection succeeds. */
  lemma NoCountersReadZero(read: CounterHandle -> CounterReading)
    ensures CurrentValue(S_OK, [], read) == Ok(0.0)
    ensures forall s :: s != S_OK ==> CurrentValue(s, [], read) == Err(s)
  {
  }

  /** The PDH query behind a `PerfQueryHandle`; `collections` counts the calls
      to `PdhCollectQueryData` made on it. */
  class PdhQuery {
    var collections: nat

    constructor ()
      ensures collections == 0
    {
      collections := 0;
    }

    /** `collect_query_data`: one `PdhCollectQueryData` call. */
    method Collect(status: Status) returns (r: Result<()>)
      modifies this
      ensures collections == old(collections) + 1
      ensures r == Check(status)
    {
      collections := collections + 1;
      r := Check(status);
    }
  }

  class PerfTracker {
    const query: PdhQuery
    const counterHandles: seq<CounterHandle>

    constructor Create(query: PdhQuery, counterHandles: seq<CounterHandle>)
      ensures this.query == query && this.counterHandles == counterHandles
    {
      this.query := query;
      this.counterHandles := counterHandles;
    }

    /** `start`: one collection, the discarded priming sample. */
    method Start(collectStatus: Status) returns (r: Result<()>)
      modifies query
      ensures query.collections == old(query.collections) + 1
      ensures r == Check(collectStatus)
    {
      r := query.Collect(collectStatus);
    }

    /** `get_current_value`: collect once, then sum the counters in handle order. */
    method GetCurrentValue(collectStatus: Status, read: CounterHandle -> CounterReading) returns (r: Result<real>)
      modifies query
      ensures query.collections == old(query.collections) + 1
      ensures r == CurrentValue(collectStatus, counterHandles, read)
    {
      var collected := query.Collect(collectStatus);
      if collected.Err? {
        return Err(collected.code);
      }
      var utilization := 0.0;
      var i := 0;
      while i < |counterHandles|
        invariant 0 <= i <= |counterHandles|
        invariant Accumulate(counterHandles, read, 0.0) == Accumulate(counterHandles[i..], read, utilization)
      {
        assert counterHandles[i..][1..] == counterHandles[i + 1..];
        var c := read(counterHandles[i]);
        if c.status != S_OK {
          return Err(c.status);
        }
        if c.cStatus != PDH_CSTATUS_VALID_DATA {
          return Panic;
        }
        utilization := utilization + c.value;
        i := i + 1;
      }
      r := Ok(utilization);
    }
  }

  /** `PerfTracker::new`: build the path, open a query, add the counters the
      path matches. `addCounters` is the pdh module's `add_perf_counters`,
      which is not part of this model. */
  method NewTracker(pid: u32, luid: Option<Luid>, openStatus: Status,
                    addCounters: string -> Result<seq<CounterHandle>>) returns (r: Result<PerfTracker>)
    ensures openStatus != S_OK ==> r == Err(openStatus)
    ensures openStatus == S_OK && !addCounters(CounterPath(pid, luid)).Ok? ==>
      r.IsFailure() && r.PropagateFailure<()>() == addCounters(CounterPath(pid, luid)).PropagateFailure<()>()
    ensures r.Ok? <==> openStatus == S_OK && addCounters(CounterPath(pid, luid)).Ok?
    ensures r.Ok? ==> (fresh(r.value) && fresh(r.value.query) && r.value.query.collections == 0
      && r.value.counterHandles == addCounters(CounterPath(pid, luid)).value)
  {
    var path := CounterPath(pid, luid);
    if openStatus != S_OK {
      return Err(openStatus);
    }
    var query := new PdhQuery();
    var added := addCounters(path);
    if !added.Ok? {
      return added.PropagateFailure();
    }
    var t := new PerfTracker.Create(query, added.value);
    r := Ok(t);
  }
}
