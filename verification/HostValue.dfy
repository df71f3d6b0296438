/** The packed little-endian layout of generated messages between the host and the engine.
    Numbers are integers of any size and are stored the way typed-array setters store them;
    floats are bit patterns; text is its UTF-8 octets. */
module HostValue {
  import opened ByteOrder
  import opened Outcomes

  type Bits32 = n: nat | n <= U32_MAX
  type Bits64 = n: nat | n <= U64_MAX

  datatype PrimitiveScalars = PrimitiveScalars(
    boolValue: bool, byteValue: int, charValue: int, float32Value: Bits32, float64Value: Bits64,
    int8Value: int, uint8Value: int, int16Value: int, uint16Value: int, int32Value: int, uint32Value: int,
    int64Value: int, uint64Value: int, stringValue: seq<byte>, wstringValue: seq<byte>)

  datatype Collections = Collections(
    fixedI32: seq<int>, boundedF64: seq<Bits64>, bytesValue: seq<byte>,
    boundedString: seq<byte>, boundedWstring: seq<byte>)

  datatype NestedSample = NestedSample(sec: int, nanosec: int, scalars: PrimitiveScalars, collections: Collections)

  /** The eight generated types. */
  datatype Value =
    | Scalars(scalars: PrimitiveScalars)
    | Colls(collections: Collections)
    | Nested(nested: NestedSample)
    | EchoRequest(input: NestedSample)
    | EchoResponse(output: NestedSample, accepted: bool)
    | MeasureGoal(target: Collections)
    | MeasureResult(result: NestedSample)
    | MeasureFeedback(progress: Bits32, sample: NestedSample)

  datatype TypeName =
    | ScalarsType | CollectionsType | NestedType | EchoRequestType | EchoResponseType
    | MeasureGoalType | MeasureResultType | MeasureFeedbackType | OtherType(name: string)

  function TypeOf(v: Value): TypeName {
    match v
    case Scalars(_) => ScalarsType
    case Colls(_) => CollectionsType
    case Nested(_) => NestedType
    case EchoRequest(_) => EchoRequestType
    case EchoResponse(_, _) => EchoResponseType
    case MeasureGoal(_) => MeasureGoalType
    case MeasureResult(_) => MeasureResultType
    case MeasureFeedback(_, _) => MeasureFeedbackType
  }

  // ---------------------------------------------------------------- layout, in front of `tail`

  /** What an `n`-octet typed-array setter keeps of an integer. */
  function Wrap(x: int, n: nat): (v: nat)
    ensures v < Span(n)
  {
    x % Span(n)
  }

  function Put(x: int, n: nat, tail: seq<byte>): (s: seq<byte>)
    ensures |s| == n + |tail|
  {
    Encode(Little, Wrap(x, n), n) + tail
  }

  function PutBool(b: bool, tail: seq<byte>): (s: seq<byte>)
    ensures |s| == 1 + |tail|
  {
    [if b then 1 else 0] + tail
  }

  function PutStr(text: seq<byte>, tail: seq<byte>): (s: seq<byte>)
    ensures |s| == 2 + |text| + |tail|
  {
    Put(|text|, 2, text + tail)
  }

  /** `toBigUint`: a negative 64-bit unsigned is sent as zero, not wrapped. */
  function Clamped(x: int): nat {
    if x < 0 then 0 else x
  }

  function PutScalars(v: PrimitiveScalars, tail: seq<byte>): (s: seq<byte>)
    ensures |s| == 45 + 2 + |v.stringValue| + 2 + |v.wstringValue| + |tail|
  {
    PutBool(v.boolValue, Put(v.byteValue, 1, Put(v.charValue, 1, Put(v.float32Value, 4, Put(v.float64Value, 8,
      Put(v.int8Value, 1, Put(v.uint8Value, 1, PutWide(v, tail))))))))
  }

  function PutWide(v: PrimitiveScalars, tail: seq<byte>): (s: seq<byte>)
    ensures |s| == 28 + 2 + |v.stringValue| + 2 + |v.wstringValue| + |tail|
  {
    Put(v.int16Value, 2, Put(v.uint16Value, 2, Put(v.int32Value, 4, Put(v.uint32Value, 4,
      Put(v.int64Value, 8, Put(Clamped(v.uint64Value), 8,
        PutStr(v.stringValue, PutStr(v.wstringValue, tail))))))))
  }

  function PutDoubles(xs: seq<Bits64>, tail: seq<byte>): (s: seq<byte>)
    ensures |s| == 8 * |xs| + |tail|
  {
    if xs == [] then tail else Put(xs[0], 8, PutDoubles(xs[1..], tail))
  }

  /** Element `i`, or zero where the array is too short. */
  function Fixed(xs: seq<int>, i: nat): int {
    if i < |xs| then xs[i] else 0
  }

  function PutCollections(v: Collections, tail: seq<byte>): (s: seq<byte>)
    ensures |s| == 24 + 8 * |v.boundedF64| + |v.bytesValue| + |v.boundedString| + |v.boundedWstring| + |tail|
  {
    Put(Fixed(v.fixedI32, 0), 4, Put(Fixed(v.fixedI32, 1), 4, Put(Fixed(v.fixedI32, 2), 4,
      Put(|v.boundedF64|, 4, PutDoubles(v.boundedF64,
        Put(|v.bytesValue|, 4, v.bytesValue + PutStr(v.boundedString, PutStr(v.boundedWstring, tail))))))))
  }

  function PutNested(v: NestedSample, tail: seq<byte>): seq<byte> {
    Put(v.sec, 4, Put(v.nanosec, 4, PutScalars(v.scalars, PutCollections(v.collections, tail))))
  }

  function PutValue(v: Value): seq<byte> {
    match v
    case Scalars(s) => PutScalars(s, [])
    case Colls(c) => PutCollections(c, [])
    case Nested(n) => PutNested(n, [])
    case EchoRequest(n) => PutNested(n, [])
    case EchoResponse(n, accepted) => PutNested(n, PutBool(accepted, []))
    case MeasureGoal(c) => PutCollections(c, [])
    case MeasureResult(n) => PutNested(n, [])
    case MeasureFeedback(progress, n) => Put(progress, 4, PutNested(n, []))
  }

  // ---------------------------------------------------------------- reading

  function GetUint(s: seq<byte>, n: nat): (r: Taken<nat>)
    ensures r.Has? <==> n <= |s|
    ensures r.Has? ==> r.value < Span(n) && |r.rest| == |s| - n
  {
    if |s| < n then Short
    else
      EncodeDecode(Little, s[..n]);
      Has(Decode(Little, s[..n]), s[n..])
  }

  function GetInt(s: seq<byte>, n: nat): (r: Taken<int>)
    requires n > 0
    ensures r.Has? <==> n <= |s|
    ensures r.Has? ==> -(Span(n) / 2) <= r.value < Span(n) / 2 && |r.rest| == |s| - n
  {
    var (v, rest) :- GetUint(s, n);
    SignedBijection(v, 0, n);
    Has(ToSigned(v, n), rest)
  }

  function GetBits32(s: seq<byte>): (r: Taken<Bits32>)
    ensures r == GetUint(s, 4)
  {
    SpanValues();
    GetUint(s, 4)
  }

  function GetBits64(s: seq<byte>): (r: Taken<Bits64>)
    ensures r == GetUint(s, 8)
  {
    SpanValues();
    GetUint(s, 8)
  }

  function GetBool(s: seq<byte>): (r: Taken<bool>)
    ensures r.Has? <==> 1 <= |s|
    ensures r.Has? ==> |r.rest| == |s| - 1
  {
    if s == [] then Short else Has(s[0] != 0, s[1..])
  }

  function GetBytes(s: seq<byte>, n: nat): (r: Taken<seq<byte>>)
    ensures r.Has? <==> n <= |s|
    ensures r.Has? ==> |r.value| == n
  {
    if |s| < n then Short else Has(s[..n], s[n..])
  }

  function GetStr(s: seq<byte>): (r: Taken<seq<byte>>)
    ensures r.Has? ==> |r.value| < Span(2)
  {
    var (len, rest) :- GetUint(s, 2);
    GetBytes(rest, len)
  }

  function GetScalars(s: seq<byte>): Taken<PrimitiveScalars> {
    if |s| < 45 then Short
    else
      var (b, s1) :- GetBool(s);
      var (byteValue, s2) :- GetUint(s1, 1);
      var (charValue, s3) :- GetUint(s2, 1);
      var (f32, s4) :- GetBits32(s3);
      var (f64, s5) :- GetBits64(s4);
      var (i8, s6) :- GetInt(s5, 1);
      var (u8, s7) :- GetUint(s6, 1);
      GetWide(s7, PrimitiveScalars(b, byteValue, charValue, f32, f64, i8, u8, 0, 0, 0, 0, 0, 0, [], []))
  }

  function GetWide(s: seq<byte>, v: PrimitiveScalars): Taken<PrimitiveScalars> {
    var (i16, s1) :- GetInt(s, 2);
    var (u16, s2) :- GetUint(s1, 2);
    var (i32, s3) :- GetInt(s2, 4);
    var (u32, s4) :- GetUint(s3, 4);
    var (i64, s5) :- GetInt(s4, 8);
    var (u64, s6) :- GetUint(s5, 8);
    var (text, s7) :- GetStr(s6);
    var (wtext, s8) :- GetStr(s7);
    Has(v.(int16Value := i16, uint16Value := u16, int32Value := i32, uint32Value := u32, int64Value := i64,
           uint64Value := u64, stringValue := text, wstringValue := wtext), s8)
  }

  function GetDoubles(s: seq<byte>, n: nat): (r: Taken<seq<Bits64>>)
    ensures r.Has? ==> |r.value| == n
    decreases n
  {
    if n == 0 then Has([], s)
    else
      var (x, s1) :- GetBits64(s);
      var (xs, s2) :- GetDoubles(s1, n - 1);
      Has([x] + xs, s2)
  }

  function GetCollections(s: seq<byte>): Taken<Collections> {
    if |s| < 12 then Short
    else
      var (a, s1) :- GetInt(s, 4);
      var (b, s2) :- GetInt(s1, 4);
      var (c, s3) :- GetInt(s2, 4);
      var (count, s4) :- GetUint(s3, 4);
      if |s4| < count * 8 then Short
      else
        var (doubles, s5) :- GetDoubles(s4, count);
        var (len, s6) :- GetUint(s5, 4);
        var (bytes, s7) :- GetBytes(s6, len);
        var (text, s8) :- GetStr(s7);
        var (wtext, s9) :- GetStr(s8);
        Has(Collections([a, b, c], doubles, bytes, text, wtext), s9)
  }

  function GetNested(s: seq<byte>): Taken<NestedSample> {
    if |s| < 8 then Short
    else
      var (sec, s1) :- GetInt(s, 4);
      var (nanosec, s2) :- GetUint(s1, 4);
      var (scalars, s3) :- GetScalars(s2);
      var (collections, s4) :- GetCollections(s3);
      Has(NestedSample(sec, nanosec, scalars, collections), s4)
  }

  function GetValue(t: TypeName, s: seq<byte>): Taken<Value>
    requires !t.OtherType?
  {
    match t
    case ScalarsType => var (v, rest) :- GetScalars(s); Has(Scalars(v), rest)
    case CollectionsType => var (v, rest) :- GetCollections(s); Has(Colls(v), rest)
    case NestedType => var (v, rest) :- GetNested(s); Has(Nested(v), rest)
    case EchoRequestType => var (v, rest) :- GetNested(s); Has(EchoRequest(v), rest)
    case EchoResponseType =>
      var (v, rest) :- GetNested(s);
      var (accepted, end) :- GetBool(rest);
      Has(EchoResponse(v, accepted), end)
    case MeasureGoalType => var (v, rest) :- GetCollections(s); Has(MeasureGoal(v), rest)
    case MeasureResultType => var (v, rest) :- GetNested(s); Has(MeasureResult(v), rest)
    case MeasureFeedbackType =>
      var (progress, body) :- GetBits32(s);
      var (v, rest) :- GetNested(body);
      Has(MeasureFeedback(progress, v), rest)
  }

  datatype Decoded = Decoded(value: Value) | Truncated | TrailingBytes | UnsupportedType

  function DecodeValue(t: TypeName, bytes: seq<byte>): Decoded {
    if t.OtherType? then UnsupportedType
    else
      match GetValue(t, bytes)
      case Short => Truncated
      case Has(v, rest) => if rest != [] then TrailingBytes else Decoded(v)
  }

  // ---------------------------------------------------------------- round trip

  predicate Unsigned(x: int, n: nat) {
    0 <= x < Span(n)
  }

  predicate Signed(x: int, n: nat) {
    -(Span(n) / 2) <= x < Span(n) / 2
  }

  /** Every member survives its field: integers in range, texts and lists countable. */
  predicate ScalarsFit(v: PrimitiveScalars) {
    && Unsigned(v.byteValue, 1) && Unsigned(v.charValue, 1) && Signed(v.int8Value, 1) && Unsigned(v.uint8Value, 1)
    && Signed(v.int16Value, 2) && Unsigned(v.uint16Value, 2) && Signed(v.int32Value, 4) && Unsigned(v.uint32Value, 4)
    && Signed(v.int64Value, 8) && Unsigned(v.uint64Value, 8)
    && |v.stringValue| < Span(2) && |v.wstringValue| < Span(2)
  }

  predicate CollectionsFit(v: Collections) {
    && |v.fixedI32| == 3 && (forall i :: 0 <= i < 3 ==> Signed(v.fixedI32[i], 4))
    && |v.boundedF64| < Span(4) && |v.bytesValue| < Span(4)
    && |v.boundedString| < Span(2) && |v.boundedWstring| < Span(2)
  }

  predicate NestedFits(v: NestedSample) {
    Signed(v.sec, 4) && Unsigned(v.nanosec, 4) && ScalarsFit(v.scalars) && CollectionsFit(v.collections)
  }

  predicate Fits(v: Value) {
    match v
    case Scalars(s) => ScalarsFit(s)
    case Colls(c) => CollectionsFit(c)
    case Nested(n) => NestedFits(n)
    case EchoRequest(n) => NestedFits(n)
    case EchoResponse(n, _) => NestedFits(n)
    case MeasureGoal(c) => CollectionsFit(c)
    case MeasureResult(n) => NestedFits(n)
    case MeasureFeedback(_, n) => NestedFits(n)
  }

  lemma {:induction false} GetPut(x: int, n: nat, tail: seq<byte>)
    ensures GetUint(Put(x, n, tail), n) == Has(Wrap(x, n), tail)
    ensures Unsigned(x, n) ==> Wrap(x, n) == x
  {
    hide Encode, Decode, Wrap;
    DecodeEncode(Little, Wrap(x, n), n);
    var s := Put(x, n, tail);
    assert s[..n] == Encode(Little, Wrap(x, n), n) && s[n..] == tail;
    assert Unsigned(x, n) ==> Wrap(x, n) == x by { WrapKeeps(x, n); }
  }

  lemma {:induction false} WrapKeeps(x: int, n: nat)
    ensures Unsigned(x, n) ==> Wrap(x, n) == x
    ensures n > 0 && Signed(x, n) ==> ToSigned(Wrap(x, n), n) == x
  {
    hide Span;
    if Unsigned(x, n) {
      SmallMod(x, Span(n));
    }
    if n > 0 && Signed(x, n) {
      HalfSpan(n);
      if x < 0 {
        SmallMod(x + Span(n), Span(n));
        ModPlus(x, Span(n));
      } else {
        SmallMod(x, Span(n));
      }
    }
  }

  lemma {:induction false} HalfSpan(n: nat)
    requires n > 0
    ensures Span(n) == 2 * (Span(n) / 2)
  {
    assert Span(n) == 2 * (128 * Span(n - 1));
  }

  lemma {:induction false} SmallMod(x: int, m: int)
    requires 0 <= x < m
    ensures x % m == x
  {
  }

  lemma {:induction false} ModPlus(x: int, m: int)
    requires -m <= x < 0 && m > 0
    ensures x % m == (x + m) % m
  {
    var q, r := x / m, x % m;
    assert x == q * m + r && 0 <= r < m;
    TimesOrder(q, m);
    assert q == -1;
    SmallMod(x + m, m);
  }

  lemma {:induction false} TimesOrder(q: int, m: nat)
    ensures q <= -2 ==> q * m <= -2 * m
    ensures q >= 0 ==> q * m >= 0
  {
    if q <= -2 {
      assert (-2 - q) * m >= 0;
    }
  }

  lemma {:induction false} GetPutSigned(x: int, n: nat, tail: seq<byte>)
    requires n > 0
    ensures Signed(x, n) ==> GetInt(Put(x, n, tail), n) == Has(x, tail)
  {
    hide GetUint, Put, Wrap, ToSigned;
    GetPut(x, n, tail);
    WrapKeeps(x, n);
  }

  lemma {:induction false} GetPutBits(x: nat, tail: seq<byte>)
    ensures x <= U32_MAX ==> GetBits32(Put(x, 4, tail)) == Has(x, tail)
    ensures x <= U64_MAX ==> GetBits64(Put(x, 8, tail)) == Has(x, tail)
  {
    hide GetUint, Put, Wrap;
    SpanValues();
    GetPut(x, 4, tail);
    GetPut(x, 8, tail);
  }

  lemma {:induction false} GetPutBool(b: bool, tail: seq<byte>)
    ensures GetBool(PutBool(b, tail)) == Has(b, tail)
  {
  }

  lemma {:induction false} GetPutStr(text: seq<byte>, tail: seq<byte>)
    requires |text| < Span(2)
    ensures GetStr(PutStr(text, tail)) == Has(text, tail)
  {
    hide GetUint, Put, Wrap, Span;
    GetPut(|text|, 2, text + tail);
    assert (text + tail)[..|text|] == text && (text + tail)[|text|..] == tail;
  }

  lemma {:induction false} GetPutDoubles(xs: seq<Bits64>, tail: seq<byte>)
    ensures GetDoubles(PutDoubles(xs, tail), |xs|) == Has(xs, tail)
  {
    hide Put, GetBits64;
    if xs != [] {
      assert xs == [xs[0]] + xs[1..];
      GetPutBits(xs[0], PutDoubles(xs[1..], tail));
      GetPutDoubles(xs[1..], tail);
    }
  }

  lemma {:induction false} GetPutWide(v: PrimitiveScalars, w: PrimitiveScalars, tail: seq<byte>)
    requires ScalarsFit(v)
    ensures GetWide(PutWide(v, tail), w) ==
            Has(w.(int16Value := v.int16Value, uint16Value := v.uint16Value, int32Value := v.int32Value,
                   uint32Value := v.uint32Value, int64Value := v.int64Value, uint64Value := v.uint64Value,
                   stringValue := v.stringValue, wstringValue := v.wstringValue), tail)
  {
    hide Put, PutStr, GetUint, GetInt, GetStr, Wrap, Span;
    var t8 := PutStr(v.wstringValue, tail);
    var t7 := PutStr(v.stringValue, t8);
    var t6 := Put(Clamped(v.uint64Value), 8, t7);
    var t5 := Put(v.int64Value, 8, t6);
    var t4 := Put(v.uint32Value, 4, t5);
    var t3 := Put(v.int32Value, 4, t4);
    var t2 := Put(v.uint16Value, 2, t3);
    GetPutSigned(v.int16Value, 2, t2);
    GetPut(v.uint16Value, 2, t3);
    GetPutSigned(v.int32Value, 4, t4);
    GetPut(v.uint32Value, 4, t5);
    GetPutSigned(v.int64Value, 8, t6);
    GetPut(Clamped(v.uint64Value), 8, t7);
    GetPutStr(v.stringValue, t8);
    GetPutStr(v.wstringValue, tail);
  }

  lemma {:induction false} GetPutScalars(v: PrimitiveScalars, tail: seq<byte>)
    requires ScalarsFit(v)
    ensures GetScalars(PutScalars(v, tail)) == Has(v, tail)
  {
    hide Put, PutWide, GetWide, GetUint, GetInt, Wrap, Span, PutBool, GetBool, GetBits32, GetBits64;
    var t8 := PutWide(v, tail);
    var t7 := Put(v.uint8Value, 1, t8);
    var t6 := Put(v.int8Value, 1, t7);
    var t5 := Put(v.float64Value, 8, t6);
    var t4 := Put(v.float32Value, 4, t5);
    var t3 := Put(v.charValue, 1, t4);
    var t2 := Put(v.byteValue, 1, t3);
    GetPutBool(v.boolValue, t2);
    GetPut(v.byteValue, 1, t3);
    GetPut(v.charValue, 1, t4);
    GetPutBits(v.float32Value, t5);
    GetPutBits(v.float64Value, t6);
    GetPutSigned(v.int8Value, 1, t7);
    GetPut(v.uint8Value, 1, t8);
    GetPutWide(v, PrimitiveScalars(v.boolValue, v.byteValue, v.charValue, v.float32Value, v.float64Value, v.int8Value,
                                   v.uint8Value, 0, 0, 0, 0, 0, 0, [], []), tail);
  }

  lemma {:induction false} GetPutCollections(v: Collections, tail: seq<byte>)
    requires CollectionsFit(v)
    ensures GetCollections(PutCollections(v, tail)) == Has(v, tail)
  {
    hide Put, PutStr, GetUint, GetInt, GetStr, Wrap, Span, PutDoubles, GetDoubles;
    var t9 := PutStr(v.boundedWstring, tail);
    var t8 := PutStr(v.boundedString, t9);
    var t7 := v.bytesValue + t8;
    var t6 := Put(|v.bytesValue|, 4, t7);
    var t5 := PutDoubles(v.boundedF64, t6);
    var t4 := Put(|v.boundedF64|, 4, t5);
    var t3 := Put(v.fixedI32[2], 4, t4);
    var t2 := Put(v.fixedI32[1], 4, t3);
    GetPutSigned(v.fixedI32[0], 4, t2);
    GetPutSigned(v.fixedI32[1], 4, t3);
    GetPutSigned(v.fixedI32[2], 4, t4);
    GetPut(|v.boundedF64|, 4, t5);
    GetPutDoubles(v.boundedF64, t6);
    GetPut(|v.bytesValue|, 4, t7);
    assert t7[..|v.bytesValue|] == v.bytesValue && t7[|v.bytesValue|..] == t8;
    GetPutStr(v.boundedString, t9);
    GetPutStr(v.boundedWstring, tail);
    assert v.fixedI32 == [v.fixedI32[0], v.fixedI32[1], v.fixedI32[2]];
  }

  lemma {:induction false} GetPutNested(v: NestedSample, tail: seq<byte>)
    requires NestedFits(v)
    ensures GetNested(PutNested(v, tail)) == Has(v, tail)
  {
    hide Put, GetUint, GetInt, Wrap, Span, PutScalars, GetScalars, PutCollections, GetCollections, ScalarsFit, CollectionsFit;
    var t4 := PutCollections(v.collections, tail);
    var t3 := PutScalars(v.scalars, t4);
    var t2 := Put(v.nanosec, 4, t3);
    GetPutSigned(v.sec, 4, t2);
    GetPut(v.nanosec, 4, t3);
    GetPutScalars(v.scalars, t4);
    GetPutCollections(v.collections, tail);
  }

  lemma {:induction false} GetPutValue(v: Value)
    requires Fits(v)
    ensures GetValue(TypeOf(v), PutValue(v)) == Has(v, [])
  {
    hide Put, GetBits32, PutScalars, GetScalars, PutCollections, GetCollections, PutNested, GetNested, PutBool, GetBool,
      NestedFits, ScalarsFit, CollectionsFit;
    match v
    case Scalars(s) => GetPutScalars(s, []);
    case Colls(c) => GetPutCollections(c, []);
    case Nested(n) => GetPutNested(n, []);
    case EchoRequest(n) => GetPutNested(n, []);
    case EchoResponse(n, accepted) =>
      GetPutNested(n, PutBool(accepted, []));
      GetPutBool(accepted, []);
    case MeasureGoal(c) => GetPutCollections(c, []);
    case MeasureResult(n) => GetPutNested(n, []);
    case MeasureFeedback(progress, n) =>
      GetPutBits(progress, PutNested(n, []));
      GetPutNested(n, []);
  }

  // ---------------------------------------------------------------- decoded values fit

  lemma {:induction false} WideFits(s: seq<byte>, v: PrimitiveScalars)
    requires Unsigned(v.byteValue, 1) && Unsigned(v.charValue, 1) && Signed(v.int8Value, 1) && Unsigned(v.uint8Value, 1)
    ensures GetWide(s, v).Has? ==> ScalarsFit(GetWide(s, v).value)
  {
    hide GetUint, GetInt, GetStr, Span;
  }

  lemma {:induction false} ScalarsReadFit(s: seq<byte>)
    ensures GetScalars(s).Has? ==> ScalarsFit(GetScalars(s).value)
  {
    hide GetUint, GetInt, GetBool, GetBits32, GetBits64, GetWide, Span, ScalarsFit;
    if GetScalars(s).Has? {
      var s1 := GetBool(s).rest;
      var byteValue := GetUint(s1, 1);
      var charValue := GetUint(byteValue.rest, 1);
      var f32 := GetBits32(charValue.rest);
      var f64 := GetBits64(f32.rest);
      var i8 := GetInt(f64.rest, 1);
      var u8 := GetUint(i8.rest, 1);
      WideFits(u8.rest, PrimitiveScalars(GetBool(s).value, byteValue.value, charValue.value, f32.value, f64.value, i8.value,
                                         u8.value, 0, 0, 0, 0, 0, 0, [], []));
    }
  }

  lemma {:induction false} CollectionsReadFit(s: seq<byte>)
    ensures GetCollections(s).Has? ==> CollectionsFit(GetCollections(s).value)
  {
    hide GetUint, GetInt, GetStr, GetDoubles, Span;
  }

  lemma {:induction false} NestedReadFits(s: seq<byte>)
    ensures GetNested(s).Has? ==> NestedFits(GetNested(s).value)
  {
    hide GetUint, GetInt, GetScalars, GetCollections, Span, ScalarsFit, CollectionsFit;
    if GetNested(s).Has? {
      var s2 := GetUint(GetInt(s, 4).rest, 4).rest;
      ScalarsReadFit(s2);
      CollectionsReadFit(GetScalars(s2).rest);
    }
  }

  lemma {:induction false} ReadFits(t: TypeName, s: seq<byte>)
    requires !t.OtherType?
    ensures GetValue(t, s).Has? ==> Fits(GetValue(t, s).value)
  {
    hide GetScalars, GetCollections, GetNested, GetBits32, GetBool, NestedFits, ScalarsFit, CollectionsFit;
    ScalarsReadFit(s);
    CollectionsReadFit(s);
    NestedReadFits(s);
    var p := GetBits32(s);
    if p.Has? {
      NestedReadFits(p.rest);
    }
  }

  /** Packed round trip, exactly: decoding an encoding returns the same value and consumes
      every byte iff each member fits its field. */
  lemma {:induction false} HostValueRoundTrip(v: Value)
    ensures DecodeValue(TypeOf(v), PutValue(v)) == Decoded(v) <==> Fits(v)
  {
    hide GetValue, PutValue, Fits;
    if Fits(v) {
      GetPutValue(v);
    }
    ReadFits(TypeOf(v), PutValue(v));
  }
}
