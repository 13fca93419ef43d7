/** The dummy window's message handling (src/window.rs): unpacking the mouse
    position from `LPARAM`, the client size, and the dispatch in
    `message_handler`. */
module Window {
  import opened Win

  const WM_DESTROY: u32 := 0x0002
  const WM_SIZE: u32 := 0x0005
  const WM_MOUSEMOVE: u32 := 0x0200
  const WM_LBUTTONDOWN: u32 := 0x0201
  const WM_RBUTTONDOWN: u32 := 0x0204
  const WM_SIZING: u32 := 0x0214
  const WM_DPICHANGED: u32 := 0x02E0

  const TWO_16: int := 0x1_0000

  /** `LPARAM`: a pointer-sized signed integer, 64 bits here. */
  type isize = x: int | -0x8000_0000_0000_0000 <= x < 0x8000_0000_0000_0000

  /** Win32 `RECT` (its fields are `i32`). */
  datatype Rect = Rect(left: int, top: int, right: int, bottom: int)

  /** `SizeInt32`. */
  datatype Size = Size(width: int, height: int)

  /** `get_mouse_position`: `lparam & 0xffff` and `(lparam >> 16) & 0xffff`.
      On a two's complement value, masking with 0xffff is the remainder
      modulo 2^16 and the arithmetic shift is division rounding down; Dafny's
      `%` and `/` by a positive divisor are exactly those. */
  function MousePosition(lparam: isize): (pos: (int, int))
    ensures 0 <= pos.0 < TWO_16 && 0 <= pos.1 < TWO_16
  {
    (lparam % TWO_16, (lparam / TWO_16) % TWO_16)
  }

  /** Packing x into the low word and y into the high word is undone. */
  lemma MousePositionRoundTrip(x: int, y: int)
    requires 0 <= x < TWO_16 && 0 <= y < TWO_16
    ensures MousePosition(x + TWO_16 * y) == (x, y)
  {
    assert (x + TWO_16 * y) / TWO_16 == y;
  }

  /** The two words together are the low 32 bits of `lparam`, read unsigned:
      for a negative `lparam` too, nothing but the high half is lost. */
  lemma {:induction false} MousePositionIsLow32Bits(lparam: isize)
    ensures var (x, y) := MousePosition(lparam); x + TWO_16 * y == lparam % TWO_32
  {
    var q := lparam / TWO_16;
    var x := lparam % TWO_16;
    var y := q % TWO_16;
    var q2 := q / TWO_16;
    assert lparam == TWO_16 * q + x;
    assert q == TWO_16 * q2 + y;
    assert lparam == TWO_32 * q2 + (x + TWO_16 * y);
    assert 0 <= x + TWO_16 * y < TWO_32;
  }

  /** `get_window_size`: `GetClientRect` with `?`, then width and height of
      the rectangle. */
  function GetWindowSize(clientRect: Result<Rect>): (r: Result<Size>)
    ensures r.Ok? <==> clientRect.Ok?
    ensures !r.Ok? ==> r == clientRect.PropagateFailure()
    ensures r.Ok? ==> (clientRect.value.left + r.value.width == clientRect.value.right
      && clientRect.value.top + r.value.height == clientRect.value.bottom)
  {
    var rect :- clientRect;
    Ok(Size(rect.right - rect.left, rect.bottom - rect.top))
  }

  /** What the handler does besides returning: post the quit message, or
      move the window (`SetWindowPos` with x, y, width, height; its result is
      ignored). */
  datatype Effect = NoEffect | PostQuit(exitCode: int) | SetWindowPos(x: int, y: int, cx: int, cy: int)

  /** The handler's effect and the `LRESULT` it returns. */
  datatype Handled = Handled(effect: Effect, result: int)

  /** `message_handler`. `suggested` is the rectangle `WM_DPICHANGED`'s
      `lparam` points at (`None`: a null pointer, which `unwrap` turns into a
      panic); `clientRect` is what `GetClientRect` answers; `defResult` is what
      `DefWindowProcW` returns. */
  function MessageHandler(message: u32, lparam: isize, suggested: Option<Rect>, clientRect: Result<Rect>,
                          defResult: int): (r: Result<Handled>)
    ensures r.Panic? <==> ((message == WM_SIZE || message == WM_SIZING) && !clientRect.Ok?)
                          || (message == WM_DPICHANGED && suggested.None?)
    ensures !r.Err?
    ensures r.Ok? ==> (r.value.effect.PostQuit? <==> message == WM_DESTROY)
    ensures r.Ok? ==> (r.value.effect.SetWindowPos? <==> message == WM_DPICHANGED)
    ensures r.Ok? && message == WM_DESTROY ==> r.value == Handled(PostQuit(0), 0)
    ensures r.Ok? && r.value.effect.SetWindowPos? ==> (var e := r.value.effect;
      r.value.result == 0 && e.x == suggested.value.left && e.y == suggested.value.top
      && e.x + e.cx == suggested.value.right && e.y + e.cy == suggested.value.bottom)
    ensures r.Ok? && message != WM_DESTROY && message != WM_DPICHANGED ==> r.value == Handled(NoEffect, defResult)
  {
    if message == WM_DESTROY then Ok(Handled(PostQuit(0), 0))
    else if message == WM_MOUSEMOVE then
      var _ := MousePosition(lparam);
      Ok(Handled(NoEffect, defResult))
    else if message == WM_SIZE || message == WM_SIZING then
      var size := GetWindowSize(clientRect);
      if !size.Ok? then Panic else Ok(Handled(NoEffect, defResult))
    else if message == WM_LBUTTONDOWN || message == WM_RBUTTONDOWN then Ok(Handled(NoEffect, defResult))
    else if message == WM_DPICHANGED then
      if suggested.None? then Panic
      else
        var rect := suggested.value;
        Ok(Handled(SetWindowPos(rect.left, rect.top, rect.right - rect.left, rect.bottom - rect.top), 0))
    else Ok(Handled(NoEffect, defResult))
  }
}
