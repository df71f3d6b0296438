/** Rust `str` values as sequences of Unicode scalars, and their UTF-8 form
    (RFC 3629, section 4). */
module Utf8 {
  import opened ByteOrder

  predicate IsScalar(c: int) {
    0 <= c <= 0xD7FF || 0xE000 <= c <= 0x10_FFFF
  }

  type Scalar = c: int | 0 <= c <= 0xD7FF || 0xE000 <= c <= 0x10_FFFF
  type Str = seq<Scalar>

  predicate Tail(b: byte) {
    0x80 <= b <= 0xBF
  }

  function EncodeScalar(c: Scalar): seq<byte> {
    if c < 0x80 then [c]
    else if c < 0x800 then [0xC0 + c / 64, 0x80 + c % 64]
    else
      var high := c / 64;
      if c < 0x1_0000 then [0xE0 + high / 64, 0x80 + high % 64, 0x80 + c % 64]
      else [0xF0 + high / 64 / 64, 0x80 + high / 64 % 64, 0x80 + high % 64, 0x80 + c % 64]
  }

  function ToUtf8(s: Str): seq<byte> {
    if s == [] then [] else EncodeScalar(s[0]) + ToUtf8(s[1..])
  }

  /** First scalar of `b` and the number of octets it takes, by the grammar of RFC 3629. */
  function FirstScalar(b: seq<byte>): (r: Option<(Scalar, nat)>)
    ensures r.Some? ==> 1 <= r.value.1 <= 4 && r.value.1 <= |b|
  {
    if b == [] then None
    else if b[0] <= 0x7F then Some((b[0], 1))
    else if |b| < 2 then None
    else if 0xC2 <= b[0] <= 0xDF && Tail(b[1]) then
      Some((64 * (b[0] as int - 0xC0) + (b[1] as int - 0x80), 2))
    else if |b| < 3 then None
    else if Lead3(b[0], b[1]) && Tail(b[2]) then
      Some((64 * (64 * (b[0] as int - 0xE0) + (b[1] as int - 0x80)) + (b[2] as int - 0x80), 3))
    else if |b| < 4 then None
    else if Lead4(b[0], b[1]) && Tail(b[2]) && Tail(b[3]) then
      Some((64 * (64 * (64 * (b[0] as int - 0xF0) + (b[1] as int - 0x80)) + (b[2] as int - 0x80)) + (b[3] as int - 0x80), 4))
    else None
  }

  predicate Lead3(b0: byte, b1: byte) {
    || (b0 == 0xE0 && 0xA0 <= b1 <= 0xBF)
    || (0xE1 <= b0 <= 0xEC && Tail(b1))
    || (b0 == 0xED && 0x80 <= b1 <= 0x9F)
    || (0xEE <= b0 <= 0xEF && Tail(b1))
  }

  predicate Lead4(b0: byte, b1: byte) {
    || (b0 == 0xF0 && 0x90 <= b1 <= 0xBF)
    || (0xF1 <= b0 <= 0xF3 && Tail(b1))
    || (b0 == 0xF4 && 0x80 <= b1 <= 0x8F)
  }

  /** `std::str::from_utf8`. */
  function FromUtf8(b: seq<byte>): Option<Str>
    decreases |b|
  {
    if b == [] then Some([])
    else
      match FirstScalar(b)
      case None => None
      case Some(first) =>
        match FromUtf8(b[first.1..])
        case None => None
        case Some(rest) => Some([first.0] + rest)
  }

  lemma {:induction false} Digit(q: int, r: int)
    requires 0 <= r < 64
    ensures (64 * q + r) / 64 == q && (64 * q + r) % 64 == r
  {
  }

  lemma {:induction false} FirstOfEncoded(c: Scalar, rest: seq<byte>)
    ensures FirstScalar(EncodeScalar(c) + rest) == Some((c, |EncodeScalar(c)|))
  {
    var b := EncodeScalar(c) + rest;
    assert forall i :: 0 <= i < |EncodeScalar(c)| ==> b[i] == EncodeScalar(c)[i];
    if 0x1_0000 <= c {
      FirstOfEncoded4(c, b);
    }
  }

  lemma {:induction false} FirstOfEncoded4(c: Scalar, b: seq<byte>)
    requires 0x1_0000 <= c && |b| >= 4
    requires b[0] == 0xF0 + c / 64 / 64 / 64 && b[1] == 0x80 + c / 64 / 64 % 64
    requires b[2] == 0x80 + c / 64 % 64 && b[3] == 0x80 + c % 64
    ensures FirstScalar(b) == Some((c, 4))
  {
    var high := c / 64;
    assert 0x400 <= high <= 0x43FF;
    assert high == 64 * (high / 64) + high % 64 && c == 64 * high + c % 64;
    assert 0x10 <= high / 64 <= 0x10F;
    assert Lead4(b[0], b[1]);
  }

  lemma {:induction false} EncodeThree(a: int, b: int, d: int)
    requires 0 <= a < 16 && 0 <= b < 64 && 0 <= d < 64
    requires 0x800 <= 64 * (64 * a + b) + d && IsScalar(64 * (64 * a + b) + d)
    ensures EncodeScalar(64 * (64 * a + b) + d) == [0xE0 + a, 0x80 + b, 0x80 + d]
  {
    Digit(64 * a + b, d);
    Digit(a, b);
  }

  lemma {:induction false} EncodeFour(a: int, b: int, d: int, e: int)
    requires 0 <= a < 8 && 0 <= b < 64 && 0 <= d < 64 && 0 <= e < 64
    requires 0x10 <= 64 * a + b <= 0x10F
    ensures var c := 64 * (64 * (64 * a + b) + d) + e;
            IsScalar(c) && EncodeScalar(c) == [0xF0 + a, 0x80 + b, 0x80 + d, 0x80 + e]
  {
    Digit(64 * (64 * a + b) + d, e);
    Digit(64 * a + b, d);
    Digit(a, b);
  }

  lemma {:induction false} EncodedOfFirst(b: seq<byte>)
    requires FirstScalar(b).Some?
    ensures var (c, k) := FirstScalar(b).value; EncodeScalar(c) == b[..k]
  {
    var (c, k) := FirstScalar(b).value;
    if k == 2 {
      Digit(b[0] as int - 0xC0, b[1] as int - 0x80);
    } else if k == 3 {
      EncodeThree(b[0] as int - 0xE0, b[1] as int - 0x80, b[2] as int - 0x80);
    } else if k == 4 {
      EncodeFour(b[0] as int - 0xF0, b[1] as int - 0x80, b[2] as int - 0x80, b[3] as int - 0x80);
    }
  }

  /** Every string decodes back from its UTF-8 form. */
  lemma {:induction false} FromToUtf8(s: Str)
    ensures FromUtf8(ToUtf8(s)) == Some(s)
  {
    hide FirstScalar, EncodeScalar;
    if s != [] {
      assert EncodeScalar(s[0]) != [] by {
        FirstOfEncoded(s[0], []);
        assert EncodeScalar(s[0]) + [] == EncodeScalar(s[0]);
      }
      FirstOfEncoded(s[0], ToUtf8(s[1..]));
      FromToUtf8(s[1..]);
      assert ToUtf8(s)[|EncodeScalar(s[0])|..] == ToUtf8(s[1..]);
      assert s == [s[0]] + s[1..];
    }
  }

  /** Accepted octets are the UTF-8 form of what they decode to: there is one spelling only. */
  lemma {:induction false} ToFromUtf8(b: seq<byte>)
    ensures FromUtf8(b).Some? ==> ToUtf8(FromUtf8(b).value) == b
    decreases |b|
  {
    if b != [] && FromUtf8(b).Some? {
      var (c, k) := FirstScalar(b).value;
      EncodedOfFirst(b);
      ToFromUtf8(b[k..]);
      assert FromUtf8(b).value[1..] == FromUtf8(b[k..]).value;
    }
  }

  /** The examples of RFC 3629, section 7: the code points and their octets, both ways. */
  lemma {:induction false} Rfc3629Examples()
    ensures ToUtf8([0x41, 0x2262, 0x391, 0x2E]) == [0x41, 0xE2, 0x89, 0xA2, 0xCE, 0x91, 0x2E]
    ensures ToUtf8([0xD55C, 0xAD6D, 0xC5B4]) == [0xED, 0x95, 0x9C, 0xEA, 0xB5, 0xAD, 0xEC, 0x96, 0xB4]
    ensures ToUtf8([0x65E5, 0x672C, 0x8A9E]) == [0xE6, 0x97, 0xA5, 0xE6, 0x9C, 0xAC, 0xE8, 0xAA, 0x9E]
    ensures ToUtf8([0xFEFF, 0x2_33B4]) == [0xEF, 0xBB, 0xBF, 0xF0, 0xA3, 0x8E, 0xB4]
  {
    hide EncodeScalar, ToUtf8;
    ExampleScalars();
    Spelled([0x41, 0x2262, 0x391, 0x2E]);
    Spelled([0xD55C, 0xAD6D, 0xC5B4]);
    Spelled([0x65E5, 0x672C, 0x8A9E]);
    Spelled([0xFEFF, 0x2_33B4]);
  }

  lemma {:induction false} ExampleScalars()
    ensures EncodeScalar(0x41) == [0x41] && EncodeScalar(0x2E) == [0x2E] && EncodeScalar(0x391) == [0xCE, 0x91]
    ensures EncodeScalar(0x2262) == [0xE2, 0x89, 0xA2]
    ensures EncodeScalar(0xD55C) == [0xED, 0x95, 0x9C] && EncodeScalar(0xAD6D) == [0xEA, 0xB5, 0xAD] && EncodeScalar(0xC5B4) == [0xEC, 0x96, 0xB4]
    ensures EncodeScalar(0x65E5) == [0xE6, 0x97, 0xA5] && EncodeScalar(0x672C) == [0xE6, 0x9C, 0xAC] && EncodeScalar(0x8A9E) == [0xE8, 0xAA, 0x9E]
    ensures EncodeScalar(0xFEFF) == [0xEF, 0xBB, 0xBF] && EncodeScalar(0x2_33B4) == [0xF0, 0xA3, 0x8E, 0xB4]
  {
  }

  lemma {:induction false} Spelled(s: Str)
    requires |s| <= 4
    ensures ToUtf8(s) ==
            (if |s| > 0 then EncodeScalar(s[0]) else []) + (if |s| > 1 then EncodeScalar(s[1]) else [])
            + (if |s| > 2 then EncodeScalar(s[2]) else []) + (if |s| > 3 then EncodeScalar(s[3]) else [])
    decreases |s|
  {
    hide EncodeScalar;
    if s != [] {
      Spelled(s[1..]);
    }
  }
}
