/** Fixed-size UTF-16 buffers as the display and DXGI APIs fill them: the name
    runs up to the first NUL code unit (or fills the buffer), and Rust's
    `String::from_utf16` turns it into a string or fails on an unpaired surrogate. */
module Wide {
  import opened Win

  /** HRESULT_FROM_WIN32(ERROR_NO_UNICODE_TRANSLATION): the error the windows
      crate gives a failed `String::from_utf16` when `?` converts it. */
  const E_NO_UNICODE_TRANSLATION: int := 0x8007_0459

  /** `iter().position(|x| *x == 0).unwrap_or(len)`: the index of the first NUL. */
  function FirstNul(buf: seq<u16>): (n: nat)
    ensures n <= |buf|
    ensures n < |buf| ==> buf[n] == 0
    ensures forall i :: 0 <= i < n ==> buf[i] != 0
  {
    if buf == [] then 0
    else if buf[0] == 0 then 0
    else 1 + FirstNul(buf[1..])
  }

  /** The name stored in `buf`: everything before the first NUL, or all of it. */
  function TruncateAtNul(buf: seq<u16>): (name: seq<u16>)
    ensures name <= buf
    ensures 0 !in name
    ensures |name| == |buf| || buf[|name|] == 0
  {
    buf[..FirstNul(buf)]
  }

  /** A buffer that already holds no NUL is its own name; one that holds a NUL
      right after `name` gives `name` back whatever follows. */
  lemma TruncateAtNulInverse(name: seq<u16>, tail: seq<u16>)
    requires 0 !in name
    ensures TruncateAtNul(name) == name
    ensures TruncateAtNul(name + [0] + tail) == name
  {
    assert forall i | 0 <= i < |name| :: name[i] in name;
    var buf := name + [0] + tail;
    assert forall i | 0 <= i < |name| :: buf[i] == name[i];
    assert buf[|name|] == 0;
  }

  predicate IsHighSurrogate(u: u16) { 0xD800 <= u < 0xDC00 }
  predicate IsLowSurrogate(u: u16) { 0xDC00 <= u < 0xE000 }

  /** The scalar value a surrogate pair stands for. */
  function PairValue(hi: u16, lo: u16): (c: char)
    requires IsHighSurrogate(hi) && IsLowSurrogate(lo)
    ensures 0x10000 <= c as int < 0x11_0000
  {
    (0x10000 + (hi - 0xD800) * 0x400 + (lo - 0xDC00)) as char
  }

  /** `String::from_utf16`: decode, failing on an unpaired surrogate. */
  function DecodeUtf16(units: seq<u16>): (r: Result<string>)
    ensures !r.Panic?
    ensures r.Err? ==> r.code == E_NO_UNICODE_TRANSLATION
  {
    if units == [] then Ok([])
    else if IsHighSurrogate(units[0]) then
      if |units| >= 2 && IsLowSurrogate(units[1]) then
        var rest := DecodeUtf16(units[2..]);
        if rest.Ok? then Ok([PairValue(units[0], units[1])] + rest.value) else rest
      else Err(E_NO_UNICODE_TRANSLATION)
    else if IsLowSurrogate(units[0]) then Err(E_NO_UNICODE_TRANSLATION)
    else
      var rest := DecodeUtf16(units[1..]);
      if rest.Ok? then Ok([units[0] as char] + rest.value) else rest
  }

  /** The UTF-16 encoding of one scalar value. */
  function EncodeChar(c: char): (units: seq<u16>)
    ensures |units| == 1 || |units| == 2
  {
    var v := c as int;
    if v < 0x10000 then [v as u16]
    else
      var w := v - 0x10000;
      [(0xD800 + w / 0x400) as u16, (0xDC00 + w % 0x400) as u16]
  }

  /** The UTF-16 encoding of a string: what `DecodeUtf16` undoes. */
  function EncodeUtf16(s: string): (units: seq<u16>)
    ensures |s| <= |units| <= 2 * |s|
  {
    if s == [] then [] else EncodeChar(s[0]) + EncodeUtf16(s[1..])
  }

  /** Decoding an encoded string gives the string back. */
  lemma {:induction false} DecodeEncode(s: string)
    ensures DecodeUtf16(EncodeUtf16(s)) == Ok(s)
  {
    if s != [] {
      var head := EncodeChar(s[0]);
      var units := head + EncodeUtf16(s[1..]);
      DecodeEncode(s[1..]);
      assert s == [s[0]] + s[1..];
      if |head| == 1 {
        assert units[1..] == EncodeUtf16(s[1..]);
      } else {
        assert units[2..] == EncodeUtf16(s[1..]);
      }
    }
  }

  /** Every successful decode is the encoding of its result: no two buffers
      decode to the same string, and decoding loses nothing. */
  lemma {:induction false} EncodeDecode(units: seq<u16>)
    requires DecodeUtf16(units).Ok?
    ensures EncodeUtf16(DecodeUtf16(units).value) == units
  {
    if units != [] {
      if IsHighSurrogate(units[0]) {
        EncodeDecode(units[2..]);
        assert units == units[..2] + units[2..];
      } else {
        EncodeDecode(units[1..]);
        assert units == units[..1] + units[1..];
      }
    }
  }

  /** A name with no NUL code unit decodes to a string with no NUL character. */
  lemma {:induction false} DecodeKeepsNoNul(units: seq<u16>)
    requires 0 !in units
    requires DecodeUtf16(units).Ok?
    ensures '\0' !in DecodeUtf16(units).value
  {
    if units != [] {
      if IsHighSurrogate(units[0]) {
        assert 0 !in units[2..] by {
          forall i | 0 <= i < |units| - 2 ensures units[2..][i] != 0 {
            assert units[i + 2] in units;
          }
        }
        DecodeKeepsNoNul(units[2..]);
      } else {
        assert units[0] in units;
        assert 0 !in units[1..] by {
          forall i | 0 <= i < |units| - 1 ensures units[1..][i] != 0 {
            assert units[i + 1] in units;
          }
        }
        DecodeKeepsNoNul(units[1..]);
      }
    }
  }

  /** The string a NUL-terminated UTF-16 buffer names, or the decoding error. */
  function NameOf(buf: seq<u16>): (r: Result<string>)
    ensures r.Ok? ==> EncodeUtf16(r.value) == TruncateAtNul(buf) && '\0' !in r.value
    ensures r.Err? <==> !DecodeUtf16(TruncateAtNul(buf)).Ok?
    ensures !r.Panic?
  {
    var r := DecodeUtf16(TruncateAtNul(buf));
    if r.Ok? then
      EncodeDecode(TruncateAtNul(buf));
      DecodeKeepsNoNul(TruncateAtNul(buf));
      r
    else r
  }
  /** Encoding a string without NUL characters produces no NUL code unit. */
  lemma {:induction false} EncodeKeepsNoNul(s: string)
    requires '\0' !in s
    ensures 0 !in EncodeUtf16(s)
  {
    if s != [] {
      assert s[0] in s;
      assert '\0' !in s[1..] by {
        forall i | 0 <= i < |s| - 1 ensures s[1..][i] != '\0' {
          assert s[i + 1] in s;
        }
      }
      EncodeKeepsNoNul(s[1..]);
    }
  }

  /** A name stored NUL-terminated, or filling the whole buffer, is read back
      unchanged whatever follows the terminator. */
  lemma NameOfStored(name: string, tail: seq<u16>)
    requires '\0' !in name
    ensures NameOf(EncodeUtf16(name)) == Ok(name)
    ensures NameOf(EncodeUtf16(name) + [0] + tail) == Ok(name)
  {
    EncodeKeepsNoNul(name);
    TruncateAtNulInverse(EncodeUtf16(name), tail);
    DecodeEncode(name);
  }
}
