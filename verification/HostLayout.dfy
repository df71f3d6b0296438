/** Where each member of a packed host value lies, and that octets that decode are, but for the
    spelling of booleans, the encoding of what they decode to. */
module HostLayout {
  import opened ByteOrder
  import opened Outcomes
  import opened HostValue

  // ---------------------------------------------------------------- the table of offsets

  /** The little-endian number in the `n` octets at `off`. */
  function Number(s: seq<byte>, off: nat, n: nat): nat
    requires off + n <= |s|
  {
    Decode(Little, s[off..off + n])
  }

  predicate TextAt(s: seq<byte>, off: nat, text: seq<byte>) {
    off + 2 + |text| <= |s| && Number(s, off, 2) == |text| % 0x1_0000 && s[off + 2..off + 2 + |text|] == text
  }

  predicate NarrowAt(s: seq<byte>, off: nat, v: PrimitiveScalars) {
    && off + 17 <= |s|
    && s[off] == (if v.boolValue then 1 else 0)
    && Number(s, off + 1, 1) == v.byteValue % 0x100
    && Number(s, off + 2, 1) == v.charValue % 0x100
    && Number(s, off + 3, 4) == v.float32Value
    && Number(s, off + 7, 8) == v.float64Value
    && Number(s, off + 15, 1) == v.int8Value % 0x100
    && Number(s, off + 16, 1) == v.uint8Value % 0x100
  }

  predicate WideAt(s: seq<byte>, off: nat, v: PrimitiveScalars) {
    && off + 28 <= |s|
    && Number(s, off, 2) == v.int16Value % 0x1_0000
    && Number(s, off + 2, 2) == v.uint16Value % 0x1_0000
    && Number(s, off + 4, 4) == v.int32Value % 0x1_0000_0000
    && Number(s, off + 8, 4) == v.uint32Value % 0x1_0000_0000
    && Number(s, off + 12, 8) == v.int64Value % 0x1_0000_0000_0000_0000
    && Number(s, off + 20, 8) == (if v.uint64Value < 0 then 0 else v.uint64Value) % 0x1_0000_0000_0000_0000
    && TextAt(s, off + 28, v.stringValue) && TextAt(s, off + 30 + |v.stringValue|, v.wstringValue)
  }

  predicate ScalarsAt(s: seq<byte>, off: nat, v: PrimitiveScalars) {
    NarrowAt(s, off, v) && WideAt(s, off + 17, v)
  }

  function ScalarsLength(v: PrimitiveScalars): nat {
    49 + |v.stringValue| + |v.wstringValue|
  }

  predicate CollectionsAt(s: seq<byte>, off: nat, v: Collections) {
    var doubles := off + 16;
    var bytes := doubles + 8 * |v.boundedF64|;
    var texts := bytes + 4 + |v.bytesValue|;
    && texts <= |s|
    && (forall i :: 0 <= i < 3 ==> Number(s, off + 4 * i, 4) == (if i < |v.fixedI32| then v.fixedI32[i] else 0) % 0x1_0000_0000)
    && Number(s, off + 12, 4) == |v.boundedF64| % 0x1_0000_0000
    && (forall i :: 0 <= i < |v.boundedF64| ==> Number(s, doubles + 8 * i, 8) == v.boundedF64[i])
    && Number(s, bytes, 4) == |v.bytesValue| % 0x1_0000_0000 && s[bytes + 4..texts] == v.bytesValue
    && TextAt(s, texts, v.boundedString) && TextAt(s, texts + 2 + |v.boundedString|, v.boundedWstring)
  }

  function CollectionsLength(v: Collections): nat {
    24 + 8 * |v.boundedF64| + |v.bytesValue| + |v.boundedString| + |v.boundedWstring|
  }

  predicate NestedAt(s: seq<byte>, off: nat, v: NestedSample) {
    && off + 8 <= |s|
    && Number(s, off, 4) == v.sec % 0x1_0000_0000 && Number(s, off + 4, 4) == v.nanosec % 0x1_0000_0000
    && ScalarsAt(s, off + 8, v.scalars) && CollectionsAt(s, off + 8 + ScalarsLength(v.scalars), v.collections)
  }

  function NestedLength(v: NestedSample): nat {
    8 + ScalarsLength(v.scalars) + CollectionsLength(v.collections)
  }

  predicate ValueAt(s: seq<byte>, v: Value) {
    match v
    case Scalars(x) => |s| == ScalarsLength(x) && ScalarsAt(s, 0, x)
    case Colls(c) => |s| == CollectionsLength(c) && CollectionsAt(s, 0, c)
    case Nested(n) => |s| == NestedLength(n) && NestedAt(s, 0, n)
    case EchoRequest(n) => |s| == NestedLength(n) && NestedAt(s, 0, n)
    case EchoResponse(n, accepted) =>
      |s| == NestedLength(n) + 1 && NestedAt(s, 0, n) && s[|s| - 1] == if accepted then 1 else 0
    case MeasureGoal(c) => |s| == CollectionsLength(c) && CollectionsAt(s, 0, c)
    case MeasureResult(n) => |s| == NestedLength(n) && NestedAt(s, 0, n)
    case MeasureFeedback(progress, n) => |s| == 4 + NestedLength(n) && Number(s, 0, 4) == progress && NestedAt(s, 4, n)
  }

  // ---------------------------------------------------------------- member by member

  lemma {:induction false} FieldAt(s: seq<byte>, off: nat, x: int, n: nat, rest: seq<byte>)
    requires off <= |s| && s[off..] == Put(x, n, rest)
    ensures off + n <= |s| && Number(s, off, n) == Wrap(x, n) && s[off + n..] == rest
  {
    hide Encode, Decode, Wrap;
    DecodeEncode(Little, Wrap(x, n), n);
    assert s[off..off + n] == s[off..][..n] && s[off + n..] == s[off..][n..];
  }

  lemma {:induction false} WrapIs(x: int)
    ensures Wrap(x, 1) == x % 0x100 && Wrap(x, 2) == x % 0x1_0000 && Wrap(x, 4) == x % 0x1_0000_0000
    ensures Wrap(x, 8) == x % 0x1_0000_0000_0000_0000
  {
    SpanValues();
  }

  lemma {:induction false} BitsKept(x: nat)
    ensures x <= U32_MAX ==> Wrap(x, 4) == x
    ensures x <= U64_MAX ==> Wrap(x, 8) == x
  {
    WrapIs(x);
  }

  lemma {:induction false} TextIsAt(s: seq<byte>, off: nat, text: seq<byte>, rest: seq<byte>)
    requires off <= |s| && s[off..] == PutStr(text, rest)
    ensures TextAt(s, off, text) && s[off + 2 + |text|..] == rest
  {
    hide Put, Wrap, Decode;
    FieldAt(s, off, |text|, 2, text + rest);
    WrapIs(|text|);
    assert s[off + 2..][..|text|] == text && s[off + 2..][|text|..] == rest;
    assert s[off + 2..off + 2 + |text|] == s[off + 2..][..|text|] && s[off + 2 + |text|..] == s[off + 2..][|text|..];
  }

  lemma {:induction false} NarrowIsAt(s: seq<byte>, off: nat, v: PrimitiveScalars, tail: seq<byte>)
    requires off <= |s| && s[off..] == PutScalars(v, tail)
    ensures NarrowAt(s, off, v) && s[off + 17..] == PutWide(v, tail)
  {
    hide Put, PutWide, Wrap, Number;
    var t8 := PutWide(v, tail);
    var t7 := Put(v.uint8Value, 1, t8);
    var t6 := Put(v.int8Value, 1, t7);
    var t5 := Put(v.float64Value, 8, t6);
    var t4 := Put(v.float32Value, 4, t5);
    var t3 := Put(v.charValue, 1, t4);
    var t2 := Put(v.byteValue, 1, t3);
    assert s[off] == s[off..][0] && s[off + 1..] == s[off..][1..] == t2;
    FieldAt(s, off + 1, v.byteValue, 1, t3);
    FieldAt(s, off + 2, v.charValue, 1, t4);
    FieldAt(s, off + 3, v.float32Value, 4, t5);
    FieldAt(s, off + 7, v.float64Value, 8, t6);
    FieldAt(s, off + 15, v.int8Value, 1, t7);
    FieldAt(s, off + 16, v.uint8Value, 1, t8);
    WrapIs(v.byteValue);
    WrapIs(v.charValue);
    BitsKept(v.float32Value);
    BitsKept(v.float64Value);
    WrapIs(v.int8Value);
    WrapIs(v.uint8Value);
  }

  lemma {:induction false} WideIsAt(s: seq<byte>, off: nat, v: PrimitiveScalars, tail: seq<byte>)
    requires off <= |s| && s[off..] == PutWide(v, tail)
    ensures WideAt(s, off, v) && s[off + 32 + |v.stringValue| + |v.wstringValue|..] == tail
  {
    hide Put, PutStr, Wrap, Number, TextAt;
    var t8 := PutStr(v.wstringValue, tail);
    var t7 := PutStr(v.stringValue, t8);
    var t6 := Put(Clamped(v.uint64Value), 8, t7);
    var t5 := Put(v.int64Value, 8, t6);
    var t4 := Put(v.uint32Value, 4, t5);
    var t3 := Put(v.int32Value, 4, t4);
    var t2 := Put(v.uint16Value, 2, t3);
    FieldAt(s, off, v.int16Value, 2, t2);
    FieldAt(s, off + 2, v.uint16Value, 2, t3);
    FieldAt(s, off + 4, v.int32Value, 4, t4);
    FieldAt(s, off + 8, v.uint32Value, 4, t5);
    FieldAt(s, off + 12, v.int64Value, 8, t6);
    FieldAt(s, off + 20, Clamped(v.uint64Value), 8, t7);
    TextIsAt(s, off + 28, v.stringValue, t8);
    TextIsAt(s, off + 30 + |v.stringValue|, v.wstringValue, tail);
    WrapIs(v.int16Value);
    WrapIs(v.uint16Value);
    WrapIs(v.int32Value);
    WrapIs(v.uint32Value);
    WrapIs(v.int64Value);
    WrapIs(Clamped(v.uint64Value));
  }

  lemma {:induction false} ScalarsAreAt(s: seq<byte>, off: nat, v: PrimitiveScalars, tail: seq<byte>)
    requires off <= |s| && s[off..] == PutScalars(v, tail)
    ensures ScalarsAt(s, off, v) && off + ScalarsLength(v) <= |s| && s[off + ScalarsLength(v)..] == tail
  {
    hide PutScalars, PutWide, NarrowAt, WideAt;
    NarrowIsAt(s, off, v, tail);
    WideIsAt(s, off + 17, v, tail);
  }

  lemma {:induction false} DoublesAreAt(s: seq<byte>, off: nat, xs: seq<Bits64>, tail: seq<byte>)
    requires off <= |s| && s[off..] == PutDoubles(xs, tail)
    ensures off + 8 * |xs| <= |s| && s[off + 8 * |xs|..] == tail
    ensures forall i :: 0 <= i < |xs| ==> Number(s, off + 8 * i, 8) == xs[i]
    decreases |xs|
  {
    hide Put, Wrap, Number;
    if xs != [] {
      FieldAt(s, off, xs[0], 8, PutDoubles(xs[1..], tail));
      BitsKept(xs[0]);
      DoublesAreAt(s, off + 8, xs[1..], tail);
      forall i | 0 <= i < |xs| ensures Number(s, off + 8 * i, 8) == xs[i] {
        if i > 0 {
          assert xs[1..][i - 1] == xs[i] && (off + 8) + 8 * (i - 1) == off + 8 * i;
        }
      }
    }
  }

  lemma {:induction false} CollectionsAreAt(s: seq<byte>, off: nat, v: Collections, tail: seq<byte>)
    requires off <= |s| && s[off..] == PutCollections(v, tail)
    ensures CollectionsAt(s, off, v) && off + CollectionsLength(v) <= |s| && s[off + CollectionsLength(v)..] == tail
  {
    hide Put, PutStr, PutDoubles, Wrap, Number, TextAt;
    var t9 := PutStr(v.boundedWstring, tail);
    var t8 := PutStr(v.boundedString, t9);
    var t7 := v.bytesValue + t8;
    var t6 := Put(|v.bytesValue|, 4, t7);
    var t5 := PutDoubles(v.boundedF64, t6);
    var t4 := Put(|v.boundedF64|, 4, t5);
    var t3 := Put(Fixed(v.fixedI32, 2), 4, t4);
    var t2 := Put(Fixed(v.fixedI32, 1), 4, t3);
    FieldAt(s, off, Fixed(v.fixedI32, 0), 4, t2);
    FieldAt(s, off + 4, Fixed(v.fixedI32, 1), 4, t3);
    FieldAt(s, off + 8, Fixed(v.fixedI32, 2), 4, t4);
    FieldAt(s, off + 12, |v.boundedF64|, 4, t5);
    DoublesAreAt(s, off + 16, v.boundedF64, t6);
    var bytes := off + 16 + 8 * |v.boundedF64|;
    FieldAt(s, bytes, |v.bytesValue|, 4, t7);
    assert s[bytes + 4..][..|v.bytesValue|] == v.bytesValue && s[bytes + 4..][|v.bytesValue|..] == t8;
    var texts := bytes + 4 + |v.bytesValue|;
    assert s[bytes + 4..texts] == s[bytes + 4..][..|v.bytesValue|] && s[texts..] == s[bytes + 4..][|v.bytesValue|..];
    TextIsAt(s, texts, v.boundedString, t9);
    TextIsAt(s, texts + 2 + |v.boundedString|, v.boundedWstring, tail);
    WrapIs(Fixed(v.fixedI32, 0));
    WrapIs(Fixed(v.fixedI32, 1));
    WrapIs(Fixed(v.fixedI32, 2));
    WrapIs(|v.boundedF64|);
    WrapIs(|v.bytesValue|);
    forall i | 0 <= i < 3 ensures Number(s, off + 4 * i, 4) == (if i < |v.fixedI32| then v.fixedI32[i] else 0) % 0x1_0000_0000 {
      assert i == 0 || i == 1 || i == 2;
    }
  }

  lemma {:induction false} NestedIsAt(s: seq<byte>, off: nat, v: NestedSample, tail: seq<byte>)
    requires off <= |s| && s[off..] == PutNested(v, tail)
    ensures NestedAt(s, off, v) && off + NestedLength(v) <= |s| && s[off + NestedLength(v)..] == tail
  {
    hide Put, PutScalars, PutCollections, Wrap, Number, ScalarsAt, CollectionsAt;
    var t4 := PutCollections(v.collections, tail);
    var t3 := PutScalars(v.scalars, t4);
    FieldAt(s, off, v.sec, 4, Put(v.nanosec, 4, t3));
    FieldAt(s, off + 4, v.nanosec, 4, t3);
    WrapIs(v.sec);
    WrapIs(v.nanosec);
    ScalarsAreAt(s, off + 8, v.scalars, t4);
    CollectionsAreAt(s, off + 8 + ScalarsLength(v.scalars), v.collections, tail);
  }

  /** Every member of every type lies at its offset in the table, as a little-endian number cut to
      its width, and there is nothing else. */
  lemma {:induction false} LayoutIs(v: Value)
    ensures ValueAt(PutValue(v), v)
  {
    hide Put, PutScalars, PutCollections, PutNested, Wrap, Number, ScalarsAt, CollectionsAt, NestedAt;
    var s := PutValue(v);
    assert s[0..] == s;
    match v
    case Scalars(x) => ScalarsAreAt(s, 0, x, []);
    case Colls(c) => CollectionsAreAt(s, 0, c, []);
    case Nested(n) => NestedIsAt(s, 0, n, []);
    case EchoRequest(n) => NestedIsAt(s, 0, n, []);
    case EchoResponse(n, accepted) =>
      NestedIsAt(s, 0, n, PutBool(accepted, []));
      assert s[NestedLength(n)..][0] == s[NestedLength(n)];
    case MeasureGoal(c) => CollectionsAreAt(s, 0, c, []);
    case MeasureResult(n) => NestedIsAt(s, 0, n, []);
    case MeasureFeedback(progress, n) =>
      FieldAt(s, 0, progress, 4, PutNested(n, []));
      BitsKept(progress);
      NestedIsAt(s, 4, n, []);
  }

  // ---------------------------------------------------------------- encoding what was decoded

  /** A boolean octet as an encoder writes it. */
  function Plain(b: byte): byte {
    if b != 0 then 1 else 0
  }

  lemma {:induction false} PutGet(s: seq<byte>, n: nat)
    ensures GetUint(s, n).Has? ==> Put(GetUint(s, n).value, n, GetUint(s, n).rest) == s
    ensures n > 0 && GetInt(s, n).Has? ==> Put(GetInt(s, n).value, n, GetInt(s, n).rest) == s
  {
    hide Encode, Decode;
    if n <= |s| {
      EncodeDecode(Little, s[..n]);
      var v := Decode(Little, s[..n]);
      SmallMod(v, Span(n));
      assert s == s[..n] + s[n..];
      if n > 0 {
        SignedBijection(v, 0, n);
        UnwrapSigned(v, n);
      }
    }
  }

  lemma {:induction false} UnwrapSigned(v: nat, n: nat)
    requires n > 0 && v < Span(n)
    ensures Wrap(ToSigned(v, n), n) == v
  {
    hide Span;
    SmallMod(v, Span(n));
    if !(v < Span(n) / 2) {
      ModPlus(v - Span(n), Span(n));
    }
  }

  lemma {:induction false} PutGetStr(s: seq<byte>)
    ensures GetStr(s).Has? ==> PutStr(GetStr(s).value, GetStr(s).rest) == s
  {
    hide Put, GetUint;
    if GetStr(s).Has? {
      PutGet(s, 2);
      var rest := GetUint(s, 2).rest;
      assert rest == GetStr(s).value + GetStr(s).rest;
    }
  }

  lemma {:induction false} PutGetDoubles(s: seq<byte>, n: nat)
    ensures GetDoubles(s, n).Has? ==> PutDoubles(GetDoubles(s, n).value, GetDoubles(s, n).rest) == s
    decreases n
  {
    hide Put, GetUint;
    if n > 0 && GetDoubles(s, n).Has? {
      var x := GetBits64(s);
      PutGet(s, 8);
      PutGetDoubles(x.rest, n - 1);
      assert GetDoubles(s, n).value[1..] == GetDoubles(x.rest, n - 1).value;
    }
  }

  lemma {:induction false} PutGetWide(s: seq<byte>, w: PrimitiveScalars)
    ensures GetWide(s, w).Has? ==>
      var v := GetWide(s, w).value;
      && PutWide(v, GetWide(s, w).rest) == s
      && v.boolValue == w.boolValue && v.byteValue == w.byteValue && v.charValue == w.charValue && v.float32Value == w.float32Value
      && v.float64Value == w.float64Value && v.int8Value == w.int8Value && v.uint8Value == w.uint8Value
  {
    hide Put, GetUint, GetInt, PutStr, GetStr, Span;
    if GetWide(s, w).Has? {
      var s1 := GetInt(s, 2).rest;
      var s2 := GetUint(s1, 2).rest;
      var s3 := GetInt(s2, 4).rest;
      var s4 := GetUint(s3, 4).rest;
      var s5 := GetInt(s4, 8).rest;
      var s6 := GetUint(s5, 8).rest;
      PutGet(s, 2);
      PutGet(s1, 2);
      PutGet(s2, 4);
      PutGet(s3, 4);
      PutGet(s4, 8);
      PutGet(s5, 8);
      PutGetStr(s6);
      PutGetStr(GetStr(s6).rest);
    }
  }

  lemma {:induction false} PutGetScalars(s: seq<byte>)
    ensures GetScalars(s).Has? ==> PutScalars(GetScalars(s).value, GetScalars(s).rest) == [Plain(s[0])] + s[1..]
  {
    hide Put, GetUint, GetInt, PutWide, GetWide, Span;
    if GetScalars(s).Has? {
      var s1 := GetBool(s).rest;
      var s2 := GetUint(s1, 1).rest;
      var s3 := GetUint(s2, 1).rest;
      var s4 := GetBits32(s3).rest;
      var s5 := GetBits64(s4).rest;
      var s6 := GetInt(s5, 1).rest;
      var s7 := GetUint(s6, 1).rest;
      PutGet(s1, 1);
      PutGet(s2, 1);
      PutGet(s3, 4);
      PutGet(s4, 8);
      PutGet(s5, 1);
      PutGet(s6, 1);
      PutGetWide(s7, PrimitiveScalars(GetBool(s).value, GetUint(s1, 1).value, GetUint(s2, 1).value, GetBits32(s3).value,
                                      GetBits64(s4).value, GetInt(s5, 1).value, GetUint(s6, 1).value, 0, 0, 0, 0, 0, 0, [], []));
    }
  }

  lemma {:induction false} PutGetCollections(s: seq<byte>)
    ensures GetCollections(s).Has? ==> PutCollections(GetCollections(s).value, GetCollections(s).rest) == s
  {
    hide Put, GetUint, GetInt, PutStr, GetStr, PutDoubles, GetDoubles, Span;
    if GetCollections(s).Has? {
      var s1 := GetInt(s, 4).rest;
      var s2 := GetInt(s1, 4).rest;
      var s3 := GetInt(s2, 4).rest;
      var count, s4 := GetUint(s3, 4).value, GetUint(s3, 4).rest;
      var s5 := GetDoubles(s4, count).rest;
      var len, s6 := GetUint(s5, 4).value, GetUint(s5, 4).rest;
      var s7 := GetBytes(s6, len).rest;
      PutGet(s, 4);
      PutGet(s1, 4);
      PutGet(s2, 4);
      PutGet(s3, 4);
      PutGetDoubles(s4, count);
      PutGet(s5, 4);
      assert s6 == GetBytes(s6, len).value + s7;
      PutGetStr(s7);
      PutGetStr(GetStr(s7).rest);
    }
  }

  lemma {:induction false} PutGetNested(s: seq<byte>)
    ensures GetNested(s).Has? ==> |s| > 8 && PutNested(GetNested(s).value, GetNested(s).rest) == s[..8] + [Plain(s[8])] + s[9..]
  {
    hide Put, GetUint, GetInt, PutScalars, GetScalars, PutCollections, GetCollections;
    if GetNested(s).Has? {
      var s1 := GetInt(s, 4).rest;
      var s2 := GetUint(s1, 4).rest;
      PutGet(s, 4);
      PutGet(s1, 4);
      PutGetScalars(s2);
      PutGetCollections(GetScalars(s2).rest);
      RestIs(s, 4);
      RestIs(s1, 4);
      ScalarsNeed(s2);
      PutOver(s, s1, s2, GetInt(s, 4).value, GetUint(s1, 4).value, [Plain(s2[0])] + s2[1..]);
      assert s[..8] + ([Plain(s[8])] + s[9..]) == s[..8] + [Plain(s[8])] + s[9..];
    }
  }

  lemma {:induction false} ScalarsNeed(s: seq<byte>)
    ensures GetScalars(s).Has? ==> |s| >= 45
  {
    hide GetBool;
  }

  lemma {:induction false} RestIs(s: seq<byte>, n: nat)
    requires n <= |s| && n > 0
    ensures GetUint(s, n).rest == GetInt(s, n).rest == s[n..]
  {
    hide Decode, ToSigned;
  }

  /** Two words kept in front of a changed rest. */
  lemma {:induction false} PutOver(s: seq<byte>, s1: seq<byte>, s2: seq<byte>, a: int, b: int, rest: seq<byte>)
    requires |s| >= 8 && s1 == s[4..] && s2 == s1[4..] && Put(a, 4, s1) == s && Put(b, 4, s2) == s1
    ensures Put(a, 4, Put(b, 4, rest)) == s[..8] + rest
  {
    hide Encode, Wrap;
    var x, y := Encode(Little, Wrap(a, 4), 4), Encode(Little, Wrap(b, 4), 4);
    assert s[..4] == x && s1[..4] == y && s[..8] == x + y;
    assert x + (y + rest) == (x + y) + rest;
  }

  /** Where a type has booleans. */
  function BoolOctets(t: TypeName, len: nat): set<nat> {
    match t
    case ScalarsType => {0}
    case NestedType => {8}
    case EchoRequestType => {8}
    case EchoResponseType => if len > 0 then {8, len - 1} else {8}
    case MeasureResultType => {8}
    case MeasureFeedbackType => {12}
    case _ => {}
  }

  /** The same octets, but for booleans written as another number than one. */
  predicate SameButBools(t: TypeName, s: seq<byte>, bytes: seq<byte>) {
    && |s| == |bytes|
    && forall i :: 0 <= i < |s| ==> s[i] == if i in BoolOctets(t, |s|) then Plain(bytes[i]) else bytes[i]
  }

  lemma {:induction false} OneBool(t: TypeName, s: seq<byte>, bytes: seq<byte>, k: nat)
    requires k < |bytes| && s == bytes[..k] + [Plain(bytes[k])] + bytes[k + 1..] && BoolOctets(t, |bytes|) == {k}
    ensures SameButBools(t, s, bytes)
  {
  }

  /** Octets that decode to a value are its encoding, but for a boolean written as another number
      than one. */
  lemma {:induction false} EncodeOfDecode(t: TypeName, bytes: seq<byte>)
    requires DecodeValue(t, bytes).Decoded?
    ensures SameButBools(t, PutValue(DecodeValue(t, bytes).value), bytes)
  {
    hide Put, PutScalars, GetScalars, PutCollections, GetCollections, PutNested, GetNested, GetUint, SameButBools;
    var s := PutValue(DecodeValue(t, bytes).value);
    match t
    case ScalarsType =>
      PutGetScalars(bytes);
      ScalarsNeed(bytes);
      assert [Plain(bytes[0])] + bytes[1..] == bytes[..0] + [Plain(bytes[0])] + bytes[0 + 1..];
      OneBool(t, s, bytes, 0);
    case CollectionsType =>
      PutGetCollections(bytes);
      NoBool(t, bytes);
    case MeasureGoalType =>
      PutGetCollections(bytes);
      NoBool(t, bytes);
    case EchoResponseType =>
      PutGetNested(bytes);
      NestedRest(bytes);
      var g := GetNested(bytes);
      assert g.rest == [g.rest[0]];
      ResponseIs(bytes, g.value, g.rest[0]);
      assert [Plain(g.rest[0])] + [] == [Plain(g.rest[0])];
      TwoBools(bytes, s);
    case MeasureFeedbackType =>
      PutGet(bytes, 4);
      RestIs(bytes, 4);
      PutGetNested(bytes[4..]);
      FeedbackIs(bytes, GetBits32(bytes).value, GetNested(bytes[4..]).value);
      OneBool(t, s, bytes, 12);
    case NestedType => NestedBools(t, bytes);
    case EchoRequestType => NestedBools(t, bytes);
    case MeasureResultType => NestedBools(t, bytes);
    case OtherType(_) =>
  }

  lemma {:induction false} NestedBools(t: TypeName, bytes: seq<byte>)
    requires (t.NestedType? || t.EchoRequestType? || t.MeasureResultType?) && DecodeValue(t, bytes).Decoded?
    ensures SameButBools(t, PutValue(DecodeValue(t, bytes).value), bytes)
  {
    hide PutNested, GetNested, SameButBools;
    PutGetNested(bytes);
    OneBool(t, PutValue(DecodeValue(t, bytes).value), bytes, 8);
  }

  lemma {:induction false} NoBool(t: TypeName, bytes: seq<byte>)
    requires BoolOctets(t, |bytes|) == {}
    ensures SameButBools(t, bytes, bytes)
  {
  }

  lemma {:induction false} TwoBools(bytes: seq<byte>, s: seq<byte>)
    requires |bytes| > 9 && s == bytes[..8] + [Plain(bytes[8])] + bytes[9..|bytes| - 1] + [Plain(bytes[|bytes| - 1])]
    ensures SameButBools(EchoResponseType, s, bytes)
  {
  }

  /** What a nested sample leaves is the end of the octets. */
  lemma {:induction false} NestedRest(bytes: seq<byte>)
    ensures var g := GetNested(bytes);
            g.Has? ==> |g.rest| + 8 < |bytes| && g.rest == bytes[|bytes| - |g.rest|..]
  {
    hide PutNested, GetNested;
    var g := GetNested(bytes);
    if g.Has? {
      PutGetNested(bytes);
      var s := PutNested(g.value, g.rest);
      NestedTail(g.value, g.rest);
      assert s[|s| - |g.rest|..] == g.rest;
      NestedLong(g.value);
    }
  }

  lemma {:induction false} NestedLong(n: NestedSample)
    ensures |PutNested(n, [])| > 9
  {
    hide Put, PutScalars, PutCollections;
  }

  lemma {:induction false} FeedbackIs(bytes: seq<byte>, progress: Bits32, n: NestedSample)
    requires |bytes| > 12 && Put(progress, 4, bytes[4..]) == bytes
    requires PutNested(n, []) == bytes[4..][..8] + [Plain(bytes[4..][8])] + bytes[4..][9..]
    ensures Put(progress, 4, PutNested(n, [])) == bytes[..12] + [Plain(bytes[12])] + bytes[13..]
  {
    hide Encode, Wrap, PutNested;
    var e := Encode(Little, Wrap(progress, 4), 4);
    assert bytes[..4] == e && bytes[..12] == e + bytes[4..][..8];
    var rest := bytes[4..][..8] + [Plain(bytes[12])] + bytes[13..];
    assert e + rest == bytes[..12] + [Plain(bytes[12])] + bytes[13..];
  }

  /** What was put in front does not depend on what comes behind. */
  lemma {:induction false} PutTail(x: int, n: nat, a: seq<byte>, b: seq<byte>)
    ensures Put(x, n, a + b) == Put(x, n, a) + b
  {
    hide Encode, Wrap;
    var e := Encode(Little, Wrap(x, n), n);
    assert e + (a + b) == (e + a) + b;
  }

  lemma {:induction false} TextTail(text: seq<byte>, a: seq<byte>, b: seq<byte>)
    ensures PutStr(text, a + b) == PutStr(text, a) + b
  {
    hide Put;
    assert text + (a + b) == (text + a) + b;
    PutTail(|text|, 2, text + a, b);
  }

  lemma {:induction false} WideTail(v: PrimitiveScalars, a: seq<byte>, b: seq<byte>)
    ensures PutWide(v, a + b) == PutWide(v, a) + b
  {
    hide Put, PutStr;
    var t8 := PutStr(v.wstringValue, a);
    var t7 := PutStr(v.stringValue, t8);
    var t6 := Put(Clamped(v.uint64Value), 8, t7);
    var t5 := Put(v.int64Value, 8, t6);
    var t4 := Put(v.uint32Value, 4, t5);
    var t3 := Put(v.int32Value, 4, t4);
    var t2 := Put(v.uint16Value, 2, t3);
    TextTail(v.wstringValue, a, b);
    TextTail(v.stringValue, t8, b);
    PutTail(Clamped(v.uint64Value), 8, t7, b);
    PutTail(v.int64Value, 8, t6, b);
    PutTail(v.uint32Value, 4, t5, b);
    PutTail(v.int32Value, 4, t4, b);
    PutTail(v.uint16Value, 2, t3, b);
    PutTail(v.int16Value, 2, t2, b);
  }

  lemma {:induction false} ScalarsTail(v: PrimitiveScalars, a: seq<byte>, b: seq<byte>)
    ensures PutScalars(v, a + b) == PutScalars(v, a) + b
  {
    hide Put, PutWide;
    var t8 := PutWide(v, a);
    var t7 := Put(v.uint8Value, 1, t8);
    var t6 := Put(v.int8Value, 1, t7);
    var t5 := Put(v.float64Value, 8, t6);
    var t4 := Put(v.float32Value, 4, t5);
    var t3 := Put(v.charValue, 1, t4);
    var t2 := Put(v.byteValue, 1, t3);
    WideTail(v, a, b);
    PutTail(v.uint8Value, 1, t8, b);
    PutTail(v.int8Value, 1, t7, b);
    PutTail(v.float64Value, 8, t6, b);
    PutTail(v.float32Value, 4, t5, b);
    PutTail(v.charValue, 1, t4, b);
    PutTail(v.byteValue, 1, t3, b);
    assert [if v.boolValue then 1 else 0] + (t2 + b) == ([if v.boolValue then 1 else 0] + t2) + b;
  }

  lemma {:induction false} DoublesTail(xs: seq<Bits64>, a: seq<byte>, b: seq<byte>)
    ensures PutDoubles(xs, a + b) == PutDoubles(xs, a) + b
    decreases |xs|
  {
    hide Put;
    if xs != [] {
      DoublesTail(xs[1..], a, b);
      PutTail(xs[0], 8, PutDoubles(xs[1..], a), b);
    }
  }

  lemma {:induction false} CollectionsTail(v: Collections, a: seq<byte>, b: seq<byte>)
    ensures PutCollections(v, a + b) == PutCollections(v, a) + b
  {
    hide Put, PutStr, PutDoubles;
    var t9 := PutStr(v.boundedWstring, a);
    var t8 := PutStr(v.boundedString, t9);
    var t6 := Put(|v.bytesValue|, 4, v.bytesValue + t8);
    var t5 := PutDoubles(v.boundedF64, t6);
    var t4 := Put(|v.boundedF64|, 4, t5);
    var t3 := Put(Fixed(v.fixedI32, 2), 4, t4);
    TextTail(v.boundedWstring, a, b);
    TextTail(v.boundedString, t9, b);
    assert v.bytesValue + (t8 + b) == (v.bytesValue + t8) + b;
    PutTail(|v.bytesValue|, 4, v.bytesValue + t8, b);
    DoublesTail(v.boundedF64, t6, b);
    PutTail(|v.boundedF64|, 4, t5, b);
    PutTail(Fixed(v.fixedI32, 2), 4, t4, b);
    PutTail(Fixed(v.fixedI32, 1), 4, t3, b);
    PutTail(Fixed(v.fixedI32, 0), 4, Put(Fixed(v.fixedI32, 1), 4, t3), b);
  }

  lemma {:induction false} NestedTail(n: NestedSample, b: seq<byte>)
    ensures PutNested(n, b) == PutNested(n, []) + b
  {
    hide Put, PutScalars, PutCollections;
    var t4 := PutCollections(n.collections, []);
    var t3 := PutScalars(n.scalars, t4);
    assert [] + b == b;
    CollectionsTail(n.collections, [], b);
    ScalarsTail(n.scalars, t4, b);
    PutTail(n.nanosec, 4, t3, b);
    PutTail(n.sec, 4, Put(n.nanosec, 4, t3), b);
  }

  lemma {:induction false} ResponseIs(bytes: seq<byte>, n: NestedSample, last: byte)
    requires |bytes| > 9 && PutNested(n, [last]) == bytes[..8] + [Plain(bytes[8])] + bytes[9..] && last == bytes[|bytes| - 1]
    ensures PutNested(n, [Plain(last)]) == bytes[..8] + [Plain(bytes[8])] + bytes[9..|bytes| - 1] + [Plain(last)]
  {
    hide PutNested;
    NestedTail(n, [last]);
    NestedTail(n, [Plain(last)]);
    var most := PutNested(n, []);
    assert most == (most + [last])[..|bytes| - 1];
    assert most == bytes[..8] + [Plain(bytes[8])] + bytes[9..|bytes| - 1];
  }
}
