/** Lists of typed fields: writing then reading, and reading then writing. */
module CdrRoundTrip {
  import opened ByteOrder
  import opened CdrLimits
  import opened Outcomes
  import opened Utf8
  import opened CdrSyntax

  type Item = i: (Kind, Field) | WellTyped(i.0, i.1) witness (Boolean, Flag(false))

  function Header(e: Endian): (h: seq<byte>)
    ensures |h| == HEADER_LENGTH
  {
    if e.Little? then [0, 1, 0, 0] else [0, 0, 0, 0]
  }

  function Kinds(items: seq<Item>): (ks: seq<Kind>)
    ensures |ks| == |items|
  {
    if items == [] then [] else [items[0].0] + Kinds(items[1..])
  }

  function Fields(items: seq<Item>): (fs: seq<Field>)
    ensures |fs| == |items|
  {
    if items == [] then [] else [items[0].1] + Fields(items[1..])
  }

  // ---------------------------------------------------------------- the writer on values

  function Reserve(at: nat, align: Width, size: nat, cap: nat): Option<Fault>
    requires BODY_ORIGIN <= at <= cap
  {
    var needed := PaddingFor(at, align) + size;
    if at + needed > cap then Some(Fault(BoundsExceeded, at, needed, cap - at)) else None
  }

  /** Why a canonical writer standing at `at` refuses the field, if it does. */
  function WriteFault(k: Kind, f: Field, l: Limits, at: nat): Option<Fault>
    requires WellTyped(k, f) && BODY_ORIGIN <= at <= WriterCapacity(l)
  {
    var cap := WriterCapacity(l);
    var pad := PaddingFor(at, AlignOf(k));
    var rem := cap - at;
    match k
    case Unsigned(w) => Reserve(at, w, w, cap)
    case Signed(w) => Reserve(at, w, w, cap)
    case Boolean => Reserve(at, 1, 1, cap)
    case String(bound) =>
      var n := |ToUtf8(f.text)|;
      if Over(n, bound) then Some(Fault(BoundsExceeded, at, n, bound.value))
      else if at + pad + 5 + n <= cap then None
      else if n == 0 then Some(Fault(BoundsExceeded, at, pad + 5, rem))
      // The smallest payload that does not fit, not the one offered.
      else Some(Fault(BoundsExceeded, at, if rem < pad + 5 then pad + 6 else rem + 1, rem))
    case WString(bound) =>
      var n := |f.text|;
      var room := if rem < pad + 4 then 0 else (rem - pad - 4) / 4;
      if Over(n, bound) && bound.value <= room then
        Some(Fault(BoundsExceeded, at, bound.value + 1, bound.value))
      else if n > room then Some(Fault(BoundsExceeded, at, pad + 4 + 4 * (room + 1), rem))
      else Reserve(at, 4, 4 + 4 * n, cap)
    case SeqLen(bound) =>
      if Over(f.n, bound) then Some(Fault(BoundsExceeded, at, f.n, bound.value))
      else if f.n > l.maxStream then Some(Fault(BoundsExceeded, at, f.n, l.maxStream))
      else Reserve(at, 4, 4, cap)
    case ByteSeq(bound) =>
      var n := |f.data|;
      if Over(n, bound) then Some(Fault(BoundsExceeded, at, n, bound.value))
      else if n > l.maxStream then Some(Fault(BoundsExceeded, at, n, l.maxStream))
      else Reserve(at, 4, 4 + n, cap)
  }

  /** Schema bounds and work ceilings, the part of acceptance that is not about room. */
  predicate Admissible(k: Kind, f: Field, l: Limits)
    requires WellTyped(k, f)
  {
    match k
    case String(bound) => !Over(|ToUtf8(f.text)|, bound)
    case WString(bound) => !Over(|f.text|, bound)
    case SeqLen(bound) => !Over(f.n, bound) && f.n <= l.maxStream
    case ByteSeq(bound) => !Over(|f.data|, bound) && |f.data| <= l.maxStream
    case _ => true
  }

  /** The capacity prechecks are exact: a field is written iff its bounds hold and its
      padded octets fit under the capacity. */
  lemma {:induction false} WriteFaultExact(k: Kind, f: Field, e: Endian, l: Limits, at: nat)
    requires WellTyped(k, f) && BODY_ORIGIN <= at <= WriterCapacity(l)
    ensures WriteFault(k, f, l, at).None? <==>
            Admissible(k, f, l) && at + |Emit(k, f, e, at)| <= WriterCapacity(l)
  {
    match k
    case WString(_) => assert |Body(k, f, e)| == 4 + 4 * |f.text|;
    case _ =>
  }

  function Write(k: Kind, f: Field, e: Endian, l: Limits, buf: seq<byte>): Result<seq<byte>>
    requires WellTyped(k, f) && BODY_ORIGIN <= |buf| <= WriterCapacity(l)
  {
    match WriteFault(k, f, l, |buf|)
    case Some(fault) => Err(fault)
    case None => Ok(buf + Emit(k, f, e, |buf|))
  }

  function EmitAll(items: seq<Item>, e: Endian, at: nat): seq<byte>
    requires BODY_ORIGIN <= at
  {
    if items == [] then []
    else
      var first := Emit(items[0].0, items[0].1, e, at);
      first + EmitAll(items[1..], e, at + |first|)
  }

  function WriteAll(items: seq<Item>, e: Endian, l: Limits, buf: seq<byte>): Result<seq<byte>>
    requires BODY_ORIGIN <= |buf| <= WriterCapacity(l)
    decreases |items|
  {
    if items == [] then Ok(buf)
    else
      var next :- Write(items[0].0, items[0].1, e, l, buf);
      WriteFaultExact(items[0].0, items[0].1, e, l, |buf|);
      WriteAll(items[1..], e, l, next)
  }

  predicate AllAdmissible(items: seq<Item>, l: Limits) {
    items != [] ==> Admissible(items[0].0, items[0].1, l) && AllAdmissible(items[1..], l)
  }

  /** A whole list is accepted iff every bound holds and the final stream fits; what is
      produced is then the old stream followed by the list's octets. */
  lemma {:induction false} WriteAllExact(items: seq<Item>, e: Endian, l: Limits, buf: seq<byte>)
    requires BODY_ORIGIN <= |buf| <= WriterCapacity(l)
    ensures WriteAll(items, e, l, buf).Ok? <==>
            AllAdmissible(items, l) && |buf| + |EmitAll(items, e, |buf|)| <= WriterCapacity(l)
    ensures WriteAll(items, e, l, buf).Ok? ==> WriteAll(items, e, l, buf).value == buf + EmitAll(items, e, |buf|)
    decreases |items|
  {
    hide Emit, WriteFault, Admissible;
    if items != [] {
      var (k, f) := items[0];
      WriteFaultExact(k, f, e, l, |buf|);
      if WriteFault(k, f, l, |buf|).None? {
        WriteAllExact(items[1..], e, l, buf + Emit(k, f, e, |buf|));
      }
    }
  }

  // ---------------------------------------------------------------- the reader on values

  function ParseAll(kinds: seq<Kind>, s: Stream, at: nat): (r: Parsed<seq<Field>>)
    requires Within(s, at)
    ensures r.Got? ==> at <= r.next <= |s.bytes| && |r.value| == |kinds|
    decreases |kinds|
  {
    if kinds == [] then Got([], at)
    else
      var (f, mid) :- Parse(kinds[0], s, at);
      var (rest, next) :- ParseAll(kinds[1..], s, mid);
      Got([f] + rest, next)
  }

  predicate StringsFit(items: seq<Item>, l: Limits) {
    items != [] ==>
      && (items[0].0.String? ==> 2 * |ToUtf8(items[0].1.text)| <= l.maxTemp)
      && StringsFit(items[1..], l)
  }

  /** The octets of `items` lie in the stream from `at`, padding octets aside. */
  predicate HoldsAll(items: seq<Item>, s: Stream, at: nat)
    requires BODY_ORIGIN <= at
  {
    items != [] ==>
      && Holds(items[0].0, items[0].1, s, at)
      && HoldsAll(items[1..], s, at + |Emit(items[0].0, items[0].1, s.endian, at)|)
  }

  predicate ReadableAll(items: seq<Item>, s: Stream) {
    items != [] ==> Readable(items[0].0, items[0].1, s) && ReadableAll(items[1..], s)
  }

  lemma {:induction false} ParseAllOfHeld(items: seq<Item>, s: Stream, at: nat)
    requires s.Open() && Within(s, at) && HoldsAll(items, s, at) && ReadableAll(items, s)
    ensures ParseAll(Kinds(items), s, at) == Got(Fields(items), at + |EmitAll(items, s.endian, at)|)
    decreases |items|
  {
    hide Body, Parse, PaddingFor;
    if items != [] {
      ParseOfHeld(items[0].0, items[0].1, s, at);
      ParseAllOfHeld(items[1..], s, at + |Emit(items[0].0, items[0].1, s.endian, at)|);
    }
  }

  lemma {:induction false} HeldOfParseAll(items: seq<Item>, s: Stream, at: nat, next: nat)
    requires s.Open() && Within(s, at) && ParseAll(Kinds(items), s, at) == Got(Fields(items), next)
    ensures HoldsAll(items, s, at) && ReadableAll(items, s)
    decreases |items|
  {
    hide Parse, Body;
    if items != [] {
      var p := Parse(items[0].0, s, at);
      HeldOfParse(items[0].0, s, at);
      assert p.value == Fields(items)[0] == items[0].1;
      assert Fields(items)[1..] == Fields(items[1..]);
      HeldOfParseAll(items[1..], s, p.next, next);
    }
  }

  /** Reading is exact: a list of kinds reads as `items` iff their octets lie there and
      each passes the reader's ceilings; the cursor then stands after the last one. */
  lemma {:induction false} ParseAllExact(items: seq<Item>, s: Stream, at: nat)
    requires s.Open() && Within(s, at)
    ensures HoldsAll(items, s, at) && ReadableAll(items, s) <==>
            ParseAll(Kinds(items), s, at) == Got(Fields(items), at + |EmitAll(items, s.endian, at)|)
  {
    if HoldsAll(items, s, at) && ReadableAll(items, s) {
      ParseAllOfHeld(items, s, at);
    }
    if ParseAll(Kinds(items), s, at) == Got(Fields(items), at + |EmitAll(items, s.endian, at)|) {
      HeldOfParseAll(items, s, at, at + |EmitAll(items, s.endian, at)|);
    }
  }

  lemma {:induction false} HoldsOfEmitted(k: Kind, f: Field, s: Stream, at: nat)
    requires BODY_ORIGIN <= at && WellTyped(k, f) && at + |Emit(k, f, s.endian, at)| <= |s.bytes|
    requires s.bytes[at..at + |Emit(k, f, s.endian, at)|] == Emit(k, f, s.endian, at)
    ensures Holds(k, f, s, at)
  {
    var first, body := Emit(k, f, s.endian, at), Body(k, f, s.endian);
    var pad := PaddingFor(at, AlignOf(k));
    assert |first| == pad + |body|;
    Slice(s.bytes, at, |first|, pad, |first|);
    assert first[pad..] == body;
  }

  lemma {:induction false} SplitSlice(b: seq<byte>, at: nat, first: seq<byte>, rest: seq<byte>)
    requires at + |first| + |rest| <= |b| && b[at..at + |first + rest|] == first + rest
    ensures b[at..at + |first|] == first
    ensures b[at + |first|..at + |first| + |rest|] == rest
  {
    Slice(b, at, |first + rest|, 0, |first|);
    Slice(b, at, |first + rest|, |first|, |first + rest|);
    assert (first + rest)[0..|first|] == first;
    assert (first + rest)[|first|..|first + rest|] == rest;
  }

  lemma {:induction false} HoldsAllOfEmitted(items: seq<Item>, s: Stream, at: nat)
    requires BODY_ORIGIN <= at && at + |EmitAll(items, s.endian, at)| <= |s.bytes|
    requires s.bytes[at..at + |EmitAll(items, s.endian, at)|] == EmitAll(items, s.endian, at)
    ensures HoldsAll(items, s, at)
    decreases |items|
  {
    hide Body, PaddingFor;
    if items != [] {
      var first := Emit(items[0].0, items[0].1, s.endian, at);
      SplitSlice(s.bytes, at, first, EmitAll(items[1..], s.endian, at + |first|));
      HoldsOfEmitted(items[0].0, items[0].1, s, at);
      HoldsAllOfEmitted(items[1..], s, at + |first|);
    }
  }

  lemma {:induction false} ParseAllAppend(a: seq<Kind>, b: seq<Kind>, s: Stream, at: nat)
    requires Within(s, at)
    ensures ParseAll(a + b, s, at) ==
            match ParseAll(a, s, at)
            case Bad(fault) => Bad(fault)
            case Got(fs, mid) =>
              match ParseAll(b, s, mid)
              case Bad(fault) => Bad(fault)
              case Got(gs, next) => Got(fs + gs, next)
    decreases |a|
  {
    hide Parse;
    if a == [] {
      assert a + b == b;
      assert forall gs: seq<Field> :: [] + gs == gs;
    } else {
      assert (a + b)[1..] == a[1..] + b;
      var p := Parse(a[0], s, at);
      if p.Got? {
        ParseAllAppend(a[1..], b, s, p.next);
        var q := ParseAll(a[1..], s, p.next);
        if q.Got? && ParseAll(b, s, q.next).Got? {
          var gs := ParseAll(b, s, q.next).value;
          assert [p.value] + (q.value + gs) == [p.value] + q.value + gs;
        }
      }
    }
  }

  lemma {:induction false} WriteAllCons(item: Item, rest: seq<Item>, e: Endian, l: Limits, buf: seq<byte>)
    requires BODY_ORIGIN <= |buf| <= WriterCapacity(l)
    ensures WriteFault(item.0, item.1, l, |buf|).None? ==> BODY_ORIGIN <= |Write(item.0, item.1, e, l, buf).value| <= WriterCapacity(l)
    ensures WriteAll([item] + rest, e, l, buf) ==
            match Write(item.0, item.1, e, l, buf)
            case Err(fault) => Err(fault)
            case Ok(mid) => WriteAll(rest, e, l, mid)
  {
    hide WriteFault, Emit, Admissible;
    WriteFaultExact(item.0, item.1, e, l, |buf|);
    assert ([item] + rest)[1..] == rest;
  }

  lemma {:induction false} WriteAllBounded(items: seq<Item>, e: Endian, l: Limits, buf: seq<byte>)
    requires BODY_ORIGIN <= |buf| <= WriterCapacity(l)
    ensures WriteAll(items, e, l, buf).Ok? ==> |buf| <= |WriteAll(items, e, l, buf).value| <= WriterCapacity(l)
  {
    WriteAllExact(items, e, l, buf);
  }

  lemma {:induction false} WriteAllAppend(a: seq<Item>, b: seq<Item>, e: Endian, l: Limits, buf: seq<byte>)
    requires BODY_ORIGIN <= |buf| <= WriterCapacity(l)
    ensures WriteAll(a, e, l, buf).Ok? ==> BODY_ORIGIN <= |WriteAll(a, e, l, buf).value| <= WriterCapacity(l)
    ensures WriteAll(a + b, e, l, buf) ==
            match WriteAll(a, e, l, buf)
            case Err(fault) => Err(fault)
            case Ok(mid) => WriteAll(b, e, l, mid)
    decreases |a|
  {
    hide Write, WriteFault, Emit;
    WriteAllBounded(a, e, l, buf);
    if a == [] {
      assert a + b == b;
    } else {
      assert a == [a[0]] + a[1..] && a + b == [a[0]] + (a[1..] + b);
      WriteAllCons(a[0], a[1..], e, l, buf);
      WriteAllCons(a[0], a[1..] + b, e, l, buf);
      var w := Write(a[0].0, a[0].1, e, l, buf);
      if w.Ok? {
        WriteFaultExact(a[0].0, a[0].1, e, l, |buf|);
        assert WriteFault(a[0].0, a[0].1, l, |buf|).None? by {
          WriteOk(a[0].0, a[0].1, e, l, buf);
        }
        WriteAllAppend(a[1..], b, e, l, w.value);
      }
    }
  }

  lemma {:induction false} WriteOk(k: Kind, f: Field, e: Endian, l: Limits, buf: seq<byte>)
    requires WellTyped(k, f) && BODY_ORIGIN <= |buf| <= WriterCapacity(l)
    ensures Write(k, f, e, l, buf).Ok? <==> WriteFault(k, f, l, |buf|).None?
  {
    hide WriteFault, Emit;
  }

  /** What a list of kinds reads as, paired up with the kinds. */
  ghost predicate Reads(items: seq<Item>, kinds: seq<Kind>, s: Stream, at: nat)
    requires Within(s, at)
  {
    Kinds(items) == kinds && ParseAll(kinds, s, at) == Got(Fields(items), at + |EmitAll(items, s.endian, at)|)
  }

  lemma {:induction false} ReadsMore(item: Item, rest: seq<Item>, kinds: seq<Kind>, s: Stream, at: nat)
    requires Within(s, at)
    requires Parse(item.0, s, at) == Got(item.1, at + |Emit(item.0, item.1, s.endian, at)|)
    requires Reads(rest, kinds, s, at + |Emit(item.0, item.1, s.endian, at)|)
    ensures Reads([item] + rest, [item.0] + kinds, s, at)
  {
    hide Parse, Emit;
  }

  /** Every accepted list of fields has typed items that spell it. */
  lemma {:induction false} ItemsOfParse(kinds: seq<Kind>, s: Stream, at: nat) returns (items: seq<Item>)
    requires s.Open() && Within(s, at) && ParseAll(kinds, s, at).Got?
    ensures Reads(items, kinds, s, at)
    decreases |kinds|
  {
    hide Body, Parse, Holds, Readable;
    items := [];
    if kinds != [] {
      var p := Parse(kinds[0], s, at);
      HeldOfParse(kinds[0], s, at);
      var rest := ItemsOfParse(kinds[1..], s, p.next);
      var item: Item := (kinds[0], p.value);
      items := [item] + rest;
      ReadsMore(item, rest, kinds[1..], s, at);
      assert kinds == [kinds[0]] + kinds[1..];
    }
  }

  lemma {:induction false} ReadableOfWritten(items: seq<Item>, s: Stream)
    requires s.Open() && AllAdmissible(items, s.limits)
    requires |EmitAll(items, s.endian, 4)| <= WriterCapacity(s.limits)
    ensures ReadableAll(items, s) <==> StringsFit(items, s.limits)
  {
    ReadableOfWrittenFrom(items, s, 4);
  }

  lemma {:induction false} ReadableOfWrittenFrom(items: seq<Item>, s: Stream, at: nat)
    requires s.Open() && AllAdmissible(items, s.limits) && BODY_ORIGIN <= at
    requires |EmitAll(items, s.endian, at)| <= WriterCapacity(s.limits)
    ensures ReadableAll(items, s) <==> StringsFit(items, s.limits)
    decreases |items|
  {
    if items != [] {
      var (k, f) := items[0];
      var first := Emit(k, f, s.endian, at);
      assert |first| >= |Body(k, f, s.endian)|;
      ReadableOfWrittenFrom(items[1..], s, at + |first|);
    }
  }

  /** Heterogeneous round trip, exactly. Whatever list of fields a writer accepts, in
      either byte order, a reader with the same limits reads it back and finishes at the
      end iff every string's UTF-8 form is at most half the temporary budget. */
  lemma {:induction false} RoundTrip(items: seq<Item>, e: Endian, l: Limits, host: Host)
    requires l.Accepted() && HEADER_LENGTH <= WriterCapacity(l)
    requires WriteAll(items, e, l, Header(e)).Ok?
    ensures var s := Stream(WriteAll(items, e, l, Header(e)).value, e, l, host);
            && s.Open()
            && (StringsFit(items, l) <==> ParseAll(Kinds(items), s, BODY_ORIGIN) == Got(Fields(items), |s.bytes|))
  {
    hide WriteAll, EmitAll, ParseAll, HoldsAll, ReadableAll, StringsFit;
    WriteAllExact(items, e, l, Header(e));
    var body := EmitAll(items, e, 4);
    var s := Stream(Header(e) + body, e, l, host);
    assert s.bytes[4..4 + |body|] == body;
    HoldsAllOfEmitted(items, s, 4);
    ReadableOfWritten(items, s);
    ParseAllExact(items, s, 4);
  }

  lemma {:induction false} AsciiLength(n: nat)
    ensures |ToUtf8(seq(n, _ => 97))| == n
  {
    if n > 0 {
      AsciiLength(n - 1);
      var t: Str := seq(n, _ => 97);
      assert t[1..] == seq(n - 1, _ => 97);
    }
  }

  /** The side condition is not vacuous: under these limits the writer accepts thirteen
      letters and the reader refuses what was written. */
  lemma {:induction false} RoundTripNeedsBudget()
    ensures var l := Limits(22, 1, 22);
            var items: seq<Item> := [(String(None), Text(seq(13, _ => 97)))];
            var w := WriteAll(items, Little, l, Header(Little));
            && w.Ok? && |w.value| == 22
            && ParseAll(Kinds(items), Stream(w.value, Little, l, Host64), BODY_ORIGIN) != Got(Fields(items), 22)
  {
    var l := Limits(22, 1, 22);
    var text: Str := seq(13, _ => 97);
    var items: seq<Item> := [(String(None), Text(text))];
    AsciiLength(13);
    WriteFaultExact(String(None), Text(text), Little, l, 4);
    assert |Body(String(None), Text(text), Little)| == 18;
    assert |Emit(String(None), Text(text), Little, 4)| == 18;
    assert items[1..] == [];
    assert WriteAll(items[1..], Little, l, Header(Little) + Emit(String(None), Text(text), Little, 4)).Ok?;
    RoundTrip(items, Little, l, Host64);
  }

  // ---------------------------------------------------------------- canonical form

  /** Offset `i` is one that a canonical writer fills with a padding zero. */
  predicate IsPadding(items: seq<Item>, e: Endian, at: nat, i: nat)
    requires BODY_ORIGIN <= at
    decreases |items|
  {
    && items != []
    && (|| at <= i < at + PaddingFor(at, AlignOf(items[0].0))
        || IsPadding(items[1..], e, at + |Emit(items[0].0, items[0].1, e, at)|, i))
  }

  lemma {:induction false} AgreeOnBody(k: Kind, f: Field, s: Stream, at: nat, i: nat)
    requires BODY_ORIGIN <= at && WellTyped(k, f) && Holds(k, f, s, at)
    requires at + PaddingFor(at, AlignOf(k)) <= i < at + |Emit(k, f, s.endian, at)|
    ensures i < |s.bytes| && s.bytes[i] == Emit(k, f, s.endian, at)[i - at]
  {
    hide Body, PaddingFor;
    var start := at + PaddingFor(at, AlignOf(k));
    var body := Body(k, f, s.endian);
    assert s.bytes[start..start + |body|][i - start] == body[i - start];
  }

  lemma {:induction false} AgreeOffPadding(items: seq<Item>, s: Stream, at: nat, i: nat)
    requires BODY_ORIGIN <= at && HoldsAll(items, s, at)
    requires at <= i < at + |EmitAll(items, s.endian, at)| && !IsPadding(items, s.endian, at, i)
    ensures i < |s.bytes| && s.bytes[i] == EmitAll(items, s.endian, at)[i - at]
    decreases |items|
  {
    hide Body, PaddingFor, Holds;
    var first := Emit(items[0].0, items[0].1, s.endian, at);
    var rest := EmitAll(items[1..], s.endian, at + |first|);
    assert EmitAll(items, s.endian, at) == first + rest;
    if i < at + |first| {
      AgreeOnBody(items[0].0, items[0].1, s, at, i);
    } else {
      AgreeOffPadding(items[1..], s, at + |first|, i);
      assert (first + rest)[i - at] == rest[i - (at + |first|)];
    }
  }

  /** `out` and `b` have the same octets from `at` on, padding aside. */
  ghost predicate SameOffPadding(items: seq<Item>, e: Endian, at: nat, out: seq<byte>, b: seq<byte>)
    requires BODY_ORIGIN <= at
  {
    && at + |out| <= |b|
    && forall i :: at <= i < at + |out| && !IsPadding(items, e, at, i) ==> b[i] == out[i - at]
  }

  /** Canonicalisation: re-encoding any accepted list of fields gives octets of the same
      length that differ from the input at most in padding. */
  lemma {:induction false} Canonical(items: seq<Item>, s: Stream, at: nat)
    requires s.Open() && Within(s, at) && Reads(items, Kinds(items), s, at)
    ensures SameOffPadding(items, s.endian, at, EmitAll(items, s.endian, at), s.bytes)
    ensures HoldsAll(items, s, at) && ReadableAll(items, s)
  {
    ParseAllExact(items, s, at);
    var out := EmitAll(items, s.endian, at);
    forall i | at <= i < at + |out| && !IsPadding(items, s.endian, at, i)
      ensures s.bytes[i] == out[i - at]
    {
      AgreeOffPadding(items, s, at, i);
    }
  }

  lemma {:induction false} AdmissibleOfHeld(k: Kind, f: Field, s: Stream, at: nat)
    requires s.Open() && BODY_ORIGIN <= at && WellTyped(k, f) && Holds(k, f, s, at) && Readable(k, f, s)
    ensures Admissible(k, f, s.limits)
  {
    hide Encode, PaddingFor, ToUtf8, Slots;
  }

  lemma {:induction false} AllAdmissibleOfHeld(items: seq<Item>, s: Stream, at: nat)
    requires s.Open() && BODY_ORIGIN <= at && HoldsAll(items, s, at) && ReadableAll(items, s)
    ensures AllAdmissible(items, s.limits)
    decreases |items|
  {
    hide Holds, Readable, Admissible, Emit;
    if items != [] {
      AdmissibleOfHeld(items[0].0, items[0].1, s, at);
      AllAdmissibleOfHeld(items[1..], s, at + |Emit(items[0].0, items[0].1, s.endian, at)|);
    }
  }

  lemma {:induction false} StringsFitOfReadable(items: seq<Item>, s: Stream)
    requires ReadableAll(items, s)
    ensures StringsFit(items, s.limits)
  {
    if items != [] {
      StringsFitOfReadable(items[1..], s);
    }
  }

  /** Any list that was read can be written back by a writer with the same limits, iff
      the octets read fit under the writer's capacity. */
  lemma {:induction false} WriteBack(items: seq<Item>, s: Stream, next: nat)
    requires s.Open() && HEADER_LENGTH <= WriterCapacity(s.limits)
    requires ParseAll(Kinds(items), s, BODY_ORIGIN) == Got(Fields(items), next)
    ensures next == BODY_ORIGIN + |EmitAll(items, s.endian, BODY_ORIGIN)|
    ensures WriteAll(items, s.endian, s.limits, Header(s.endian)).Ok? <==> next <= WriterCapacity(s.limits)
  {
    hide WriteAll, EmitAll, ParseAll, HoldsAll, ReadableAll, AllAdmissible;
    HeldOfParseAll(items, s, BODY_ORIGIN, next);
    ParseAllOfHeld(items, s, BODY_ORIGIN);
    AllAdmissibleOfHeld(items, s, BODY_ORIGIN);
    WriteAllExact(items, s.endian, s.limits, Header(s.endian));
  }

  lemma {:induction false} EmitAllGrows(items: seq<Item>, e: Endian, at: nat)
    requires BODY_ORIGIN <= at
    ensures |items| <= |EmitAll(items, e, at)|
    decreases |items|
  {
    if items != [] {
      EmitAllGrows(items[1..], e, at + |Emit(items[0].0, items[0].1, e, at)|);
    }
  }
}
