/** Octets and fixed-width integers in either byte order.
    Rust's `to_le_bytes`/`from_be_bytes` family and JavaScript's `DataView` accessors
    are both modelled by `Encode` and `Decode`. */
module ByteOrder {

  type byte = b: int | 0 <= b < 256

  datatype Option<+T> = None | Some(value: T)

  datatype Endian = Big | Little

  const U32_MAX: nat := 0xFFFF_FFFF
  const U64_MAX: nat := 0xFFFF_FFFF_FFFF_FFFF

  /** Number of values an `n`-octet unsigned integer can take. */
  function Span(n: nat): (p: nat)
    ensures p > 0
  {
    if n == 0 then 1 else 256 * Span(n - 1)
  }

  /** The `k`-th base-256 digit of `v`, least significant first. */
  function Digit(v: nat, k: nat): byte
    decreases k
  {
    if k == 0 then v % 256 else Digit(v / 256, k - 1)
  }

  function Digits(v: nat, n: nat): (s: seq<byte>)
    ensures |s| == n
  {
    seq(n, k requires 0 <= k => Digit(v, k))
  }

  function Value(s: seq<byte>): nat {
    if s == [] then 0 else s[0] + 256 * Value(s[1..])
  }

  function Reverse(s: seq<byte>): (r: seq<byte>)
    ensures |r| == |s|
  {
    seq(|s|, i requires 0 <= i < |s| => s[|s| - 1 - i])
  }

  function Encode(e: Endian, v: nat, n: nat): (s: seq<byte>)
    ensures |s| == n
  {
    if e.Little? then Digits(v, n) else Reverse(Digits(v, n))
  }

  function Decode(e: Endian, s: seq<byte>): nat {
    Value(if e.Little? then s else Reverse(s))
  }

  lemma {:induction false} ValueOfDigits(v: nat, n: nat)
    requires v < Span(n)
    ensures Value(Digits(v, n)) == v
    decreases n
  {
    if n > 0 {
      ValueOfDigits(v / 256, n - 1);
      assert Digits(v, n)[1..] == Digits(v / 256, n - 1);
    }
  }

  lemma {:induction false} DigitsOfValue(s: seq<byte>)
    ensures Value(s) < Span(|s|)
    ensures Digits(Value(s), |s|) == s
  {
    if s != [] {
      DigitsOfValue(s[1..]);
      assert Digits(Value(s), |s|) == [s[0]] + Digits(Value(s[1..]), |s| - 1);
    }
  }

  lemma {:induction false} DecodeEncode(e: Endian, v: nat, n: nat)
    requires v < Span(n)
    ensures Decode(e, Encode(e, v, n)) == v
  {
    ValueOfDigits(v, n);
    assert Reverse(Reverse(Digits(v, n))) == Digits(v, n);
  }

  lemma {:induction false} EncodeDecode(e: Endian, s: seq<byte>)
    ensures Decode(e, s) < Span(|s|)
    ensures Encode(e, Decode(e, s), |s|) == s
  {
    DigitsOfValue(if e.Little? then s else Reverse(s));
    assert Reverse(Reverse(s)) == s;
  }

  lemma {:induction false} SpanValues()
    ensures Span(1) == 0x100 && Span(2) == 0x1_0000
    ensures Span(4) == 0x1_0000_0000 && Span(8) == 0x1_0000_0000_0000_0000
  {
    assert Span(3) == 256 * Span(2) && Span(4) == 256 * Span(3);
    assert Span(5) == 256 * Span(4) && Span(6) == 256 * Span(5);
    assert Span(7) == 256 * Span(6) && Span(8) == 256 * Span(7);
  }

  /** Two's complement, the meaning of Rust's `as` between equal widths. */
  function ToSigned(v: nat, n: nat): int
  {
    if v < Span(n) / 2 then v else v - Span(n)
  }

  function FromSigned(x: int, n: nat): int
  {
    if x < 0 then x + Span(n) else x
  }

  /** The cast pair `as iN` / `as uN` is a bijection between the two ranges. */
  lemma {:induction false} SignedBijection(v: nat, x: int, n: nat)
    requires n > 0
    ensures v < Span(n) ==> -(Span(n) / 2) <= ToSigned(v, n) < Span(n) / 2 && FromSigned(ToSigned(v, n), n) == v
    ensures -(Span(n) / 2) <= x < Span(n) / 2 ==> 0 <= FromSigned(x, n) < Span(n) && ToSigned(FromSigned(x, n), n) == x
  {
    assert Span(n) == 2 * (128 * Span(n - 1));
  }

  function Zeros(n: nat): (s: seq<byte>)
    ensures |s| == n
    ensures forall i :: 0 <= i < n ==> s[i] == 0
  {
    seq(n, _ => 0)
  }

  // ---------------------------------------------------------------- which octet is which

  lemma {:induction false} MultipleGrows(d: int, k: int)
    requires d > 0
    ensures k >= 1 ==> d * k >= d
    ensures k <= -1 ==> d * k <= -d
  {
    if k >= 1 {
      assert d * k == d + d * (k - 1);
    } else if k <= -1 {
      assert d * k == -d + d * (k + 1);
    }
  }

  lemma {:induction false} QuotientIs(v: nat, d: nat, q: nat, r: nat)
    requires d > 0 && v == d * q + r && r < d
    ensures v / d == q
  {
    var k := v / d - q;
    assert v == d * (v / d) + v % d;
    assert d * k == d * (v / d) - d * q;
    MultipleGrows(d, k);
  }

  lemma {:induction false} DivideTwice(v: nat, b: nat)
    requires b > 0
    ensures v / 256 / b == v / (256 * b)
  {
    var q, r := v / 256, v % 256;
    var p, s := q / b, q % b;
    assert q == b * p + s;
    assert (256 * b) * p == 256 * (b * p);
    QuotientIs(v, 256 * b, p, 256 * s + r);
  }

  lemma {:induction false} DigitIs(v: nat, k: nat)
    ensures Digit(v, k) == v / Span(k) % 256
    decreases k
  {
    if k > 0 {
      DigitIs(v / 256, k - 1);
      DivideTwice(v, Span(k - 1));
    }
  }

  /** Octet `i` is the digit of weight 256 to the `i` in little-endian order, and of the weight
      counted from the other end in big-endian order. */
  lemma {:induction false} OctetIs(e: Endian, v: nat, n: nat, i: nat)
    requires i < n
    ensures Encode(e, v, n)[i] == v / Span(if e.Little? then i else n - 1 - i) % 256
  {
    DigitIs(v, if e.Little? then i else n - 1 - i);
  }

  /** Read little-endian, the first octet weighs least; big-endian, the last one does. */
  lemma {:induction false} WeightOf(b: byte, s: seq<byte>)
    ensures Decode(Little, [b] + s) == b + 256 * Decode(Little, s)
    ensures Decode(Big, s + [b]) == 256 * Decode(Big, s) + b
    ensures Decode(Little, []) == Decode(Big, []) == 0
  {
    assert ([b] + s)[1..] == s;
    var back := Reverse(s + [b]);
    assert back == [b] + Reverse(s) && back[1..] == Reverse(s);
  }

  /** Two's complement: the number in the signed range that differs by a multiple of the span. */
  lemma {:induction false} SignedIs(v: nat, n: nat)
    requires n > 0 && v < Span(n)
    ensures -(Span(n) / 2) <= ToSigned(v, n) < Span(n) / 2
    ensures ToSigned(v, n) == v || ToSigned(v, n) == v - Span(n)
  {
    SignedBijection(v, 0, n);
  }
}
