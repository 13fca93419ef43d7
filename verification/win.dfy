/** Shared vocabulary for the model: the outcome of a fallible call and the
    integer widths the Windows API uses. */
module Win {

  /** Outcome of a fallible call. `Err` carries the error code that Rust's `?`
      propagates; `Panic` stands for a Rust panic (`unwrap`, `expect`, `assert`)
      that unwinds through every caller, so `:-` propagates it as well. */
  datatype Result<T> = Ok(value: T) | Err(code: int) | Panic
  {
    predicate IsFailure() { !Ok? }

    function PropagateFailure<U>(): Result<U>
      requires !Ok?
    {
      if Err? then Err(code) else Panic
    }

    function Extract(): T
      requires Ok?
    {
      value
    }
  }

  datatype Option<T> = None | Some(value: T)

  /** The status an OS call reports: an HRESULT or Win32 error code, 0 meaning success. */
  type Status = int

  const S_OK: Status := 0

  /** `.ok()` on a returned status: success, or the status as the error. */
  function Check(s: Status): (r: Result<()>)
    ensures r.Ok? <==> s == S_OK
    ensures r.Err? ==> r.code == s
  {
    if s == S_OK then Ok(()) else Err(s)
  }

  /** The outcome of a loop that pushes each result with `?`: every value in
      order, or the first failure (nothing after it is evaluated). */
  function AllOk<T(==)>(rs: seq<Result<T>>): (r: Result<seq<T>>)
    ensures r.Ok? <==> forall i :: 0 <= i < |rs| ==> rs[i].Ok?
    ensures r.Ok? ==> |r.value| == |rs| && forall i :: 0 <= i < |rs| ==> rs[i] == Ok(r.value[i])
    ensures !r.Ok? ==> exists k :: (0 <= k < |rs| && !rs[k].Ok? && r == rs[k].PropagateFailure()
      && forall i :: 0 <= i < k ==> rs[i].Ok?)
  {
    if rs == [] then Ok([])
    else if !rs[0].Ok? then rs[0].PropagateFailure()
    else
      var rest := AllOk(rs[1..]);
      if rest.Ok? then Ok([rs[0].value] + rest.value)
      else
        var k :| 0 <= k < |rs| - 1 && !rs[1..][k].Ok? && rest == rs[1..][k].PropagateFailure()
          && forall i :: 0 <= i < k ==> rs[1..][i].Ok?;
        assert forall i :: 0 <= i < k + 1 ==> rs[i].Ok? by {
          forall i | 0 <= i < k + 1 ensures rs[i].Ok? {
            if i > 0 { assert rs[i] == rs[1..][i - 1]; }
          }
        }
        assert rs[k + 1] == rs[1..][k];
        rest
  }

  /** What such a loop has done after `k` successful pushes: at the end it
      holds exactly `AllOk`'s values, and a failure at `k` is `AllOk`'s failure. */
  lemma AllOkAfter<T>(rs: seq<Result<T>>, vals: seq<T>)
    requires |vals| <= |rs| && forall j :: 0 <= j < |vals| ==> rs[j] == Ok(vals[j])
    ensures |vals| == |rs| ==> AllOk(rs) == Ok(vals)
    ensures |vals| < |rs| && !rs[|vals|].Ok? ==> AllOk(rs) == rs[|vals|].PropagateFailure()
  {
    var r := AllOk(rs);
    if |vals| == |rs| {
      assert r.value == vals;
    } else if !rs[|vals|].Ok? {
      var k :| 0 <= k < |rs| && !rs[k].Ok? && r == rs[k].PropagateFailure()
        && forall i :: 0 <= i < k ==> rs[i].Ok?;
      assert k == |vals|;
    }
  }

  /** `HRESULT::from_win32`: how `?` turns a Win32 error code into an error.
      A code that is already an HRESULT (0, or negative as an `i32`) passes
      through; any other code keeps its low 16 bits under facility 7 with the
      severity bit set. Either way a failure is a negative HRESULT. */
  function HResultFromWin32(code: u32): (h: Status)
    ensures code == 0 <==> h == S_OK
    ensures code >= 0x8000_0000 ==> h == code
    ensures 0 < code < 0x8000_0000 ==> h % 0x1_0000 == code % 0x1_0000 && h / 0x1_0000 == 0x8007
    ensures h == S_OK || 0x8000_0000 <= h < 0x1_0000_0000
  {
    if code == 0 || code >= 0x8000_0000 then code else 0x8007_0000 + code % 0x1_0000
  }

  /** Rust's `Duration`, as a whole number of nanoseconds. */
  type Duration = nat

  const NANOS_PER_MILLI: nat := 1_000_000

  const TWO_32: nat := 0x1_0000_0000

  /** A locally unique identifier (Win32 `LUID`): an unsigned low half and a
      signed high half. */
  datatype Luid = Luid(lowPart: u32, highPart: i32)

  type u16 = x: int | 0 <= x < 0x1_0000
  type u32 = x: int | 0 <= x < 0x1_0000_0000
  type i32 = x: int | -0x8000_0000 <= x < 0x8000_0000
}
