/** The packed codec as the host runs it: setters at a moving offset into a buffer sized in
    advance, and a cursor over the received bytes. */
module HostValueCodec {
  import opened ByteOrder
  import opened Outcomes
  import opened HostValue

  // ---------------------------------------------------------------- writing

  /** The part of `whole` before `o` is in the buffer; `rest` is still to be written. */
  ghost predicate Done(out: array<byte>, o: nat, whole: seq<byte>, rest: seq<byte>)
    reads out
  {
    |whole| == out.Length && o <= out.Length && whole == out[..o] + rest
  }

  /** An integer setter of `n` octets at `o`. */
  method Set(out: array<byte>, o: nat, n: nat, x: int, ghost whole: seq<byte>, ghost rest: seq<byte>) returns (next: nat)
    requires Done(out, o, whole, Put(x, n, rest))
    modifies out
    ensures next == o + n && Done(out, next, whole, rest)
  {
    hide Encode, Wrap;
    next := SetBytes(out, o, Encode(Little, Wrap(x, n), n), whole, rest);
  }

  /** `out.set(bytes, o)`. */
  method SetBytes(out: array<byte>, o: nat, bytes: seq<byte>, ghost whole: seq<byte>, ghost rest: seq<byte>) returns (next: nat)
    requires Done(out, o, whole, bytes + rest)
    modifies out
    ensures next == o + |bytes| && Done(out, next, whole, rest)
  {
    ghost var before := out[..o];
    forall i | 0 <= i < |bytes| {
      out[o + i] := bytes[i];
    }
    next := o + |bytes|;
    assert out[..next] == before + bytes;
    assert before + (bytes + rest) == before + bytes + rest;
  }

  /** `writeU16Str`. */
  method WriteU16Str(out: array<byte>, o: nat, text: seq<byte>, ghost whole: seq<byte>, ghost rest: seq<byte>) returns (next: nat)
    requires Done(out, o, whole, PutStr(text, rest))
    modifies out
    ensures next == o + 2 + |text| && Done(out, next, whole, rest)
  {
    hide Put;
    next := Set(out, o, 2, |text|, whole, text + rest);
    next := SetBytes(out, next, text, whole, rest);
  }

  lemma {:induction false} AllDone(out: array<byte>, whole: seq<byte>)
    requires Done(out, out.Length, whole, [])
    ensures out[..] == whole
  {
    assert out[..out.Length] == out[..];
  }

  method EncodePrimitiveScalars(v: PrimitiveScalars) returns (out: array<byte>)
    ensures fresh(out) && out[..] == PutScalars(v, [])
  {
    hide Put, PutStr, PutWide, Done;
    ghost var whole := PutScalars(v, []);
    out := new byte[45 + 2 + |v.stringValue| + 2 + |v.wstringValue|];
    ghost var t7 := PutWide(v, []);
    ghost var t6 := Put(v.uint8Value, 1, t7);
    ghost var t5 := Put(v.int8Value, 1, t6);
    ghost var t4 := Put(v.float64Value, 8, t5);
    ghost var t3 := Put(v.float32Value, 4, t4);
    ghost var t2 := Put(v.charValue, 1, t3);
    ghost var t1 := Put(v.byteValue, 1, t2);
    StartDone(out, whole);
    var o := SetBytes(out, 0, [if v.boolValue then 1 else 0], whole, t1);
    o := Set(out, o, 1, v.byteValue, whole, t2);
    o := Set(out, o, 1, v.charValue, whole, t3);
    o := Set(out, o, 4, v.float32Value, whole, t4);
    o := Set(out, o, 8, v.float64Value, whole, t5);
    o := Set(out, o, 1, v.int8Value, whole, t6);
    o := Set(out, o, 1, v.uint8Value, whole, t7);
    o := EncodeWide(out, o, v, whole);
    AllDone(out, whole);
  }

  /** The rest of the scalars, from the first 16-bit member on. */
  method EncodeWide(out: array<byte>, start: nat, v: PrimitiveScalars, ghost whole: seq<byte>) returns (o: nat)
    requires Done(out, start, whole, PutWide(v, []))
    modifies out
    ensures o == out.Length && Done(out, o, whole, [])
  {
    hide Put, PutStr, Done;
    DoneLength(out, start, whole, PutWide(v, []));
    ghost var t7 := PutStr(v.wstringValue, []);
    ghost var t6 := PutStr(v.stringValue, t7);
    ghost var t5 := Put(Clamped(v.uint64Value), 8, t6);
    ghost var t4 := Put(v.int64Value, 8, t5);
    ghost var t3 := Put(v.uint32Value, 4, t4);
    ghost var t2 := Put(v.int32Value, 4, t3);
    ghost var t1 := Put(v.uint16Value, 2, t2);
    o := Set(out, start, 2, v.int16Value, whole, t1);
    o := Set(out, o, 2, v.uint16Value, whole, t2);
    o := Set(out, o, 4, v.int32Value, whole, t3);
    o := Set(out, o, 4, v.uint32Value, whole, t4);
    o := Set(out, o, 8, v.int64Value, whole, t5);
    o := Set(out, o, 8, Clamped(v.uint64Value), whole, t6);
    o := WriteU16Str(out, o, v.stringValue, whole, t7);
    o := WriteU16Str(out, o, v.wstringValue, whole, []);
  }

  lemma {:induction false} StartDone(out: array<byte>, whole: seq<byte>)
    requires |whole| == out.Length
    ensures Done(out, 0, whole, whole)
  {
  }

  lemma {:induction false} DoneLength(out: array<byte>, o: nat, whole: seq<byte>, rest: seq<byte>)
    requires Done(out, o, whole, rest)
    ensures out.Length == o + |rest|
  {
  }

  method EncodeCollections(v: Collections) returns (out: array<byte>)
    ensures fresh(out) && out[..] == PutCollections(v, [])
  {
    hide Put, PutStr, PutDoubles, Done;
    ghost var whole := PutCollections(v, []);
    out := new byte[12 + 4 + |v.boundedF64| * 8 + 4 + |v.bytesValue| + 2 + |v.boundedString| + 2 + |v.boundedWstring|];
    ghost var t8 := PutStr(v.boundedWstring, []);
    ghost var t7 := PutStr(v.boundedString, t8);
    ghost var t6 := v.bytesValue + t7;
    ghost var t5 := Put(|v.bytesValue|, 4, t6);
    ghost var t4 := PutDoubles(v.boundedF64, t5);
    ghost var t3 := Put(|v.boundedF64|, 4, t4);
    StartDone(out, whole);
    var o := EncodeFixed(out, v.fixedI32, whole, t3);
    o := Set(out, o, 4, |v.boundedF64|, whole, t4);
    o := EncodeDoubles(out, o, v.boundedF64, whole, t5);
    o := Set(out, o, 4, |v.bytesValue|, whole, t6);
    o := SetBytes(out, o, v.bytesValue, whole, t7);
    o := WriteU16Str(out, o, v.boundedString, whole, t8);
    o := WriteU16Str(out, o, v.boundedWstring, whole, []);
    DoneLength(out, o, whole, []);
    AllDone(out, whole);
  }

  /** Elements `k` to 2 of the fixed array, in front of `rest`. */
  function PutFixed(xs: seq<int>, k: nat, rest: seq<byte>): seq<byte>
    requires k <= 3
    decreases 3 - k
  {
    if k == 3 then rest else Put(Fixed(xs, k), 4, PutFixed(xs, k + 1, rest))
  }

  method EncodeFixed(out: array<byte>, xs: seq<int>, ghost whole: seq<byte>, ghost rest: seq<byte>) returns (o: nat)
    requires Done(out, 0, whole, Put(Fixed(xs, 0), 4, Put(Fixed(xs, 1), 4, Put(Fixed(xs, 2), 4, rest))))
    modifies out
    ensures o == 12 && Done(out, o, whole, rest)
  {
    hide Put, Done;
    o := 0;
    assert PutFixed(xs, 0, rest) == Put(Fixed(xs, 0), 4, Put(Fixed(xs, 1), 4, Put(Fixed(xs, 2), 4, rest))) by {
      assert PutFixed(xs, 2, rest) == Put(Fixed(xs, 2), 4, rest);
      assert PutFixed(xs, 1, rest) == Put(Fixed(xs, 1), 4, PutFixed(xs, 2, rest));
    }
    for i := 0 to 3
      invariant o == 4 * i && Done(out, o, whole, PutFixed(xs, i, rest))
    {
      o := Set(out, o, 4, if i < |xs| then xs[i] else 0, whole, PutFixed(xs, i + 1, rest));
    }
  }

  method EncodeDoubles(out: array<byte>, start: nat, xs: seq<Bits64>, ghost whole: seq<byte>, ghost rest: seq<byte>)
    returns (o: nat)
    requires Done(out, start, whole, PutDoubles(xs, rest))
    modifies out
    ensures o == start + 8 * |xs| && Done(out, o, whole, rest)
  {
    hide Put, Done;
    o := start;
    assert xs[0..] == xs;
    for i := 0 to |xs|
      invariant o == start + 8 * i && Done(out, o, whole, PutDoubles(xs[i..], rest))
    {
      assert xs[i..][0] == xs[i] && xs[i..][1..] == xs[i + 1..];
      o := Set(out, o, 8, xs[i], whole, PutDoubles(xs[i + 1..], rest));
    }
  }

  lemma {:induction false} PutTail(x: int, n: nat, a: seq<byte>, b: seq<byte>)
    ensures Put(x, n, a + b) == Put(x, n, a) + b
  {
    hide Encode, Wrap;
  }

  lemma {:induction false} PutStrTail(text: seq<byte>, a: seq<byte>, b: seq<byte>)
    ensures PutStr(text, a + b) == PutStr(text, a) + b
  {
    hide Put;
    assert text + (a + b) == text + a + b;
    PutTail(|text|, 2, text + a, b);
  }

  lemma {:induction false} PutWideTail(v: PrimitiveScalars, tail: seq<byte>)
    ensures PutWide(v, tail) == PutWide(v, []) + tail
  {
    hide Put, PutStr;
    assert [] + tail == tail;
    var t7 := PutStr(v.wstringValue, []);
    var t6 := PutStr(v.stringValue, t7);
    var t5 := Put(Clamped(v.uint64Value), 8, t6);
    var t4 := Put(v.int64Value, 8, t5);
    var t3 := Put(v.uint32Value, 4, t4);
    var t2 := Put(v.int32Value, 4, t3);
    var t1 := Put(v.uint16Value, 2, t2);
    PutStrTail(v.wstringValue, [], tail);
    PutStrTail(v.stringValue, t7, tail);
    PutTail(Clamped(v.uint64Value), 8, t6, tail);
    PutTail(v.int64Value, 8, t5, tail);
    PutTail(v.uint32Value, 4, t4, tail);
    PutTail(v.int32Value, 4, t3, tail);
    PutTail(v.uint16Value, 2, t2, tail);
    PutTail(v.int16Value, 2, t1, tail);
  }

  lemma {:induction false} PutScalarsTail(v: PrimitiveScalars, tail: seq<byte>)
    ensures PutScalars(v, tail) == PutScalars(v, []) + tail
  {
    hide Put, PutWide;
    var t7 := PutWide(v, []);
    var t6 := Put(v.uint8Value, 1, t7);
    var t5 := Put(v.int8Value, 1, t6);
    var t4 := Put(v.float64Value, 8, t5);
    var t3 := Put(v.float32Value, 4, t4);
    var t2 := Put(v.charValue, 1, t3);
    PutWideTail(v, tail);
    PutTail(v.uint8Value, 1, t7, tail);
    PutTail(v.int8Value, 1, t6, tail);
    PutTail(v.float64Value, 8, t5, tail);
    PutTail(v.float32Value, 4, t4, tail);
    PutTail(v.charValue, 1, t3, tail);
    PutTail(v.byteValue, 1, t2, tail);
  }

  lemma {:induction false} PutDoublesTail(xs: seq<Bits64>, a: seq<byte>, b: seq<byte>)
    ensures PutDoubles(xs, a + b) == PutDoubles(xs, a) + b
  {
    hide Put;
    if xs != [] {
      PutDoublesTail(xs[1..], a, b);
      PutTail(xs[0], 8, PutDoubles(xs[1..], a), b);
    }
  }

  lemma {:induction false} PutCollectionsTail(v: Collections, tail: seq<byte>)
    ensures PutCollections(v, tail) == PutCollections(v, []) + tail
  {
    hide Put, PutStr, PutDoubles, Fixed;
    assert [] + tail == tail;
    var t8 := PutStr(v.boundedWstring, []);
    var t7 := PutStr(v.boundedString, t8);
    var t6 := v.bytesValue + t7;
    var t5 := Put(|v.bytesValue|, 4, t6);
    var t4 := PutDoubles(v.boundedF64, t5);
    var t3 := Put(|v.boundedF64|, 4, t4);
    var t2 := Put(Fixed(v.fixedI32, 2), 4, t3);
    var t1 := Put(Fixed(v.fixedI32, 1), 4, t2);
    PutStrTail(v.boundedWstring, [], tail);
    PutStrTail(v.boundedString, t8, tail);
    assert v.bytesValue + (t7 + tail) == t6 + tail;
    PutTail(|v.bytesValue|, 4, t6, tail);
    PutDoublesTail(v.boundedF64, t5, tail);
    PutTail(|v.boundedF64|, 4, t4, tail);
    PutTail(Fixed(v.fixedI32, 2), 4, t3, tail);
    PutTail(Fixed(v.fixedI32, 1), 4, t2, tail);
    PutTail(Fixed(v.fixedI32, 0), 4, t1, tail);
  }

  lemma {:induction false} PutNestedTail(v: NestedSample, tail: seq<byte>)
    ensures PutNested(v, tail) == PutNested(v, []) + tail
  {
    hide Put, PutScalars, PutCollections;
    var s, c := PutScalars(v.scalars, []), PutCollections(v.collections, []);
    PutCollectionsTail(v.collections, tail);
    PutScalarsTail(v.scalars, c + tail);
    PutScalarsTail(v.scalars, c);
    assert s + (c + tail) == s + c + tail;
    PutTail(v.nanosec, 4, s + c, tail);
    PutTail(v.sec, 4, Put(v.nanosec, 4, s + c), tail);
  }

  method EncodeNestedSample(v: NestedSample) returns (out: array<byte>)
    ensures fresh(out) && out[..] == PutNested(v, [])
  {
    hide Put, PutScalars, PutCollections, Done;
    var scalars := EncodePrimitiveScalars(v.scalars);
    var collections := EncodeCollections(v.collections);
    ghost var s, c := scalars[..], collections[..];
    ghost var whole := PutNested(v, []);
    PutScalarsTail(v.scalars, c);
    assert c + [] == c;
    out := new byte[8 + scalars.Length + collections.Length];
    StartDone(out, whole);
    var o := Set(out, 0, 4, v.sec, whole, Put(v.nanosec, 4, s + c));
    o := Set(out, o, 4, v.nanosec, whole, s + c);
    o := SetBytes(out, o, scalars[..], whole, c);
    o := SetBytes(out, o, collections[..], whole, []);
    AllDone(out, whole);
  }

  method EncodeEchoResponse(output: NestedSample, accepted: bool) returns (out: array<byte>)
    ensures fresh(out) && out[..] == PutNested(output, PutBool(accepted, []))
  {
    hide PutNested, Done;
    var nested := EncodeNestedSample(output);
    ghost var whole := PutNested(output, PutBool(accepted, []));
    PutNestedTail(output, PutBool(accepted, []));
    out := new byte[nested.Length + 1];
    StartDone(out, whole);
    var o := SetBytes(out, 0, nested[..], whole, PutBool(accepted, []));
    assert PutBool(accepted, []) == [if accepted then 1 else 0] + [];
    o := SetBytes(out, o, [if accepted then 1 else 0], whole, []);
    AllDone(out, whole);
  }

  method EncodeMeasureFeedback(progress: Bits32, sample: NestedSample) returns (out: array<byte>)
    ensures fresh(out) && out[..] == Put(progress, 4, PutNested(sample, []))
  {
    hide PutNested, Done, Put;
    var nested := EncodeNestedSample(sample);
    ghost var whole := Put(progress, 4, PutNested(sample, []));
    out := new byte[4 + nested.Length];
    StartDone(out, whole);
    var o := Set(out, 0, 4, progress, whole, nested[..]);
    assert nested[..] + [] == nested[..];
    o := SetBytes(out, o, nested[..], whole, []);
    AllDone(out, whole);
  }

  /** `encodeGeneratedHostValue`: nothing for a type that is not generated. */
  method EncodeGeneratedHostValue(t: TypeName, v: Value) returns (out: Option<array<byte>>)
    requires t.OtherType? || TypeOf(v) == t
    ensures out.None? <==> t.OtherType?
    ensures out.Some? ==> fresh(out.value) && out.value[..] == PutValue(v)
  {
    hide PutScalars, PutCollections, PutNested, Put, PutBool;
    var filled;
    match t {
      case OtherType(_) => return None;
      case ScalarsType => filled := EncodePrimitiveScalars(v.scalars);
      case CollectionsType => filled := EncodeCollections(v.collections);
      case NestedType => filled := EncodeNestedSample(v.nested);
      case EchoRequestType => filled := EncodeNestedSample(v.input);
      case EchoResponseType => filled := EncodeEchoResponse(v.output, v.accepted);
      case MeasureGoalType => filled := EncodeCollections(v.target);
      case MeasureResultType => filled := EncodeNestedSample(v.result);
      case MeasureFeedbackType => filled := EncodeMeasureFeedback(v.progress, v.sample);
    }
    return Some(filled);
  }

  // ---------------------------------------------------------------- reading

  /** A read ran as the layout says: the value and the bytes left, or a thrown error. */
  predicate Ran<T(==)>(r: Option<T>, after: seq<byte>, spec: Taken<T>) {
    match spec
    case Has(v, rest) => r == Some(v) && after == rest
    case Short => r == None
  }

  class Cursor {
    const bytes: seq<byte>
    var o: nat

    predicate Valid()
      reads this
    {
      o <= |bytes|
    }

    function Rest(): seq<byte>
      requires Valid()
      reads this
    {
      bytes[o..]
    }

    constructor (b: seq<byte>)
      ensures Valid() && bytes == b && Rest() == b
    {
      bytes, o := b, 0;
    }

    method Need(n: nat) returns (ok: bool)
      requires Valid()
      ensures ok == (n <= |Rest()|)
    {
      return !(o + n > |bytes|);
    }

    /** A getter; the caller has checked that the octets are there. */
    method Uint(n: nat) returns (v: nat)
      requires Valid() && n <= |Rest()|
      modifies this
      ensures Valid() && GetUint(old(Rest()), n) == Has(v, Rest())
    {
      hide Decode;
      v := Decode(Little, bytes[o..o + n]);
      assert bytes[o..][..n] == bytes[o..o + n] && bytes[o..][n..] == bytes[o + n..];
      o := o + n;
    }

    method Int(n: nat) returns (x: int)
      requires Valid() && 0 < n <= |Rest()|
      modifies this
      ensures Valid() && GetInt(old(Rest()), n) == Has(x, Rest())
    {
      hide GetUint;
      var v := Uint(n);
      x := ToSigned(v, n);
    }

    method Bool() returns (b: bool)
      requires Valid() && 1 <= |Rest()|
      modifies this
      ensures Valid() && GetBool(old(Rest())) == Has(b, Rest())
    {
      b := bytes[o] != 0;
      o := o + 1;
    }

    method ReadU16Str() returns (r: Option<seq<byte>>)
      requires Valid()
      modifies this
      ensures Valid() && Ran(r, Rest(), GetStr(old(Rest())))
    {
      hide GetUint;
      var ok := Need(2);
      if !ok {
        return None;
      }
      var len := Uint(2);
      ok := Need(len);
      if !ok {
        return None;
      }
      var text := bytes[o..o + len];
      assert bytes[o..][..len] == text && bytes[o..][len..] == bytes[o + len..];
      o := o + len;
      return Some(text);
    }

    method ReadU32() returns (r: Option<nat>)
      requires Valid()
      modifies this
      ensures Valid() && Ran(r, Rest(), GetUint(old(Rest()), 4))
    {
      hide GetUint;
      var ok := Need(4);
      if !ok {
        return None;
      }
      var v := Uint(4);
      return Some(v);
    }

    method ReadPrimitiveScalars() returns (r: Option<PrimitiveScalars>)
      requires Valid()
      modifies this
      ensures Valid() && Ran(r, Rest(), GetScalars(old(Rest())))
    {
      hide GetUint, GetInt, GetBool, GetWide, Span;
      SpanValues();
      var ok := Need(45);
      if !ok {
        return None;
      }
      var b := Bool();
      var byteValue := Uint(1);
      var charValue := Uint(1);
      var f32 := Uint(4);
      var f64 := Uint(8);
      var i8 := Int(1);
      var u8 := Uint(1);
      r := ReadWide(PrimitiveScalars(b, byteValue, charValue, f32, f64, i8, u8, 0, 0, 0, 0, 0, 0, [], []));
    }

    method ReadWide(v: PrimitiveScalars) returns (r: Option<PrimitiveScalars>)
      requires Valid() && 28 <= |Rest()|
      modifies this
      ensures Valid() && Ran(r, Rest(), GetWide(old(Rest()), v))
    {
      hide GetUint, GetInt, GetStr;
      var i16 := Int(2);
      var u16 := Uint(2);
      var i32 := Int(4);
      var u32 := Uint(4);
      var i64 := Int(8);
      var u64 := Uint(8);
      var text := ReadU16Str();
      if text.None? {
        return None;
      }
      var wtext := ReadU16Str();
      if wtext.None? {
        return None;
      }
      return Some(v.(int16Value := i16, uint16Value := u16, int32Value := i32, uint32Value := u32, int64Value := i64,
                     uint64Value := u64, stringValue := text.value, wstringValue := wtext.value));
    }

    method ReadDoubles(n: nat) returns (xs: seq<Bits64>)
      requires Valid() && n * 8 <= |Rest()|
      modifies this
      ensures Valid() && GetDoubles(old(Rest()), n) == Has(xs, Rest())
    {
      hide GetUint, Span;
      SpanValues();
      xs := [];
      ghost var s := Rest();
      DoublesStart(s, n);
      for i := 0 to n
        invariant Valid() && |xs| == i && (n - i) * 8 <= |Rest()|
        invariant GetDoubles(s, n) == Onto(xs, GetDoubles(Rest(), n - i))
      {
        ghost var before := Rest();
        var x := Uint(8);
        DoublesStep(before, n - i, xs, x, Rest());
        xs := xs + [x];
      }
      assert GetDoubles(Rest(), 0) == Has([], Rest()) && xs + [] == xs;
    }

    method ReadCollections() returns (r: Option<Collections>)
      requires Valid()
      modifies this
      ensures Valid() && Ran(r, Rest(), GetCollections(old(Rest())))
    {
      hide GetUint, GetInt, GetStr, GetDoubles;
      var ok := Need(12);
      if !ok {
        return None;
      }
      var a := Int(4);
      var b := Int(4);
      var c := Int(4);
      var count := ReadU32();
      if count.None? {
        return None;
      }
      ok := Need(count.value * 8);
      if !ok {
        return None;
      }
      var doubles := ReadDoubles(count.value);
      r := ReadCollectionsTail(a, b, c, doubles);
    }

    method ReadCollectionsTail(a: int, b: int, c: int, doubles: seq<Bits64>) returns (r: Option<Collections>)
      requires Valid()
      modifies this
      ensures Valid() && Ran(r, Rest(), CollectionsTail(old(Rest()), a, b, c, doubles))
    {
      hide GetUint, GetStr;
      var len := ReadU32();
      if len.None? {
        return None;
      }
      var ok := Need(len.value);
      if !ok {
        return None;
      }
      var data := bytes[o..o + len.value];
      assert bytes[o..][..len.value] == data && bytes[o..][len.value..] == bytes[o + len.value..];
      o := o + len.value;
      var text := ReadU16Str();
      if text.None? {
        return None;
      }
      var wtext := ReadU16Str();
      if wtext.None? {
        return None;
      }
      return Some(Collections([a, b, c], doubles, data, text.value, wtext.value));
    }

    method ReadNestedSample() returns (r: Option<NestedSample>)
      requires Valid()
      modifies this
      ensures Valid() && Ran(r, Rest(), GetNested(old(Rest())))
    {
      hide GetUint, GetInt, GetScalars, GetCollections;
      var ok := Need(8);
      if !ok {
        return None;
      }
      var sec := Int(4);
      var nanosec := Uint(4);
      var scalars := ReadPrimitiveScalars();
      if scalars.None? {
        return None;
      }
      var collections := ReadCollections();
      if collections.None? {
        return None;
      }
      return Some(NestedSample(sec, nanosec, scalars.value, collections.value));
    }

    /** The dispatch of `decodeGeneratedHostValue` on a supported type. */
    method ReadValue(t: TypeName) returns (r: Option<Value>)
      requires Valid() && !t.OtherType?
      modifies this
      ensures Valid() && Ran(r, Rest(), GetValue(t, old(Rest())))
    {
      hide GetUint, GetScalars, GetCollections, GetNested, GetBool, Span;
      SpanValues();
      match t {
        case ScalarsType =>
          var v := ReadPrimitiveScalars();
          return if v.None? then None else Some(Scalars(v.value));
        case CollectionsType =>
          var v := ReadCollections();
          return if v.None? then None else Some(Colls(v.value));
        case NestedType =>
          var v := ReadNestedSample();
          return if v.None? then None else Some(Nested(v.value));
        case EchoRequestType =>
          var v := ReadNestedSample();
          return if v.None? then None else Some(EchoRequest(v.value));
        case EchoResponseType =>
          var v := ReadNestedSample();
          if v.None? {
            return None;
          }
          var ok := Need(1);
          if !ok {
            return None;
          }
          var accepted := Bool();
          return Some(EchoResponse(v.value, accepted));
        case MeasureGoalType =>
          var v := ReadCollections();
          return if v.None? then None else Some(MeasureGoal(v.value));
        case MeasureResultType =>
          var v := ReadNestedSample();
          return if v.None? then None else Some(MeasureResult(v.value));
        case MeasureFeedbackType =>
          var ok := Need(4);
          if !ok {
            return None;
          }
          var progress := Uint(4);
          var v := ReadNestedSample();
          return if v.None? then None else Some(MeasureFeedback(progress, v.value));
      }
    }
  }

  /** The members of `Collections` after the doubles. */
  function CollectionsTail(s: seq<byte>, a: int, b: int, c: int, doubles: seq<Bits64>): Taken<Collections> {
    var (len, s1) :- GetUint(s, 4);
    var (bytes, s2) :- GetBytes(s1, len);
    var (text, s3) :- GetStr(s2);
    var (wtext, s4) :- GetStr(s3);
    Has(Collections([a, b, c], doubles, bytes, text, wtext), s4)
  }

  /** A read continued after `xs`. */
  function Onto(xs: seq<Bits64>, r: Taken<seq<Bits64>>): Taken<seq<Bits64>> {
    match r
    case Has(ys, rest) => Has(xs + ys, rest)
    case Short => Short
  }

  lemma {:induction false} DoublesStart(s: seq<byte>, n: nat)
    ensures GetDoubles(s, n) == Onto([], GetDoubles(s, n))
  {
    hide GetDoubles;
    var r := GetDoubles(s, n);
    if r.Has? {
      assert [] + r.value == r.value;
    }
  }

  lemma {:induction false} DoublesStep(s: seq<byte>, n: nat, xs: seq<Bits64>, x: Bits64, rest: seq<byte>)
    requires n > 0 && GetUint(s, 8) == Has(x, rest)
    ensures Onto(xs, GetDoubles(s, n)) == Onto(xs + [x], GetDoubles(rest, n - 1))
  {
    hide GetUint;
    var r := GetDoubles(rest, n - 1);
    if r.Has? {
      assert xs + ([x] + r.value) == xs + [x] + r.value;
    }
  }

  /** `decodeGeneratedHostValue`. */
  method DecodeGeneratedHostValue(t: TypeName, bytes: seq<byte>) returns (r: Decoded)
    ensures r == DecodeValue(t, bytes)
  {
    hide GetValue;
    if t.OtherType? {
      return UnsupportedType;
    }
    var cur := new Cursor(bytes);
    var v := cur.ReadValue(t);
    if v.None? {
      return Truncated;
    }
    if cur.o != |bytes| {
      return TrailingBytes;
    }
    return Decoded(v.value);
  }
}
