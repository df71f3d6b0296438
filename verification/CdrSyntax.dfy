/** CDR1 transfer syntax as mathematics: what octets a value stands for at an offset
    (`Emit`), and what a stream means at an offset (`Parse`). No cursor, no host
    integers. The reader and writer classes are proved against these two functions. */
module CdrSyntax {
  import opened ByteOrder
  import opened CdrLimits
  import opened Outcomes
  import opened Utf8

  /** A field's wire type with its optional schema bound. Floats travel as their bit
      patterns: `Unsigned(4)` and `Unsigned(8)`. */
  datatype Kind =
    | Unsigned(width: Width)
    | Signed(width: Width)
    | Boolean
    | String(bound: Option<nat>)
    | WString(bound: Option<nat>)
    | SeqLen(bound: Option<nat>)
    | ByteSeq(bound: Option<nat>)

  datatype Field = Number(n: int) | Flag(b: bool) | Text(text: Str) | Octets(data: seq<byte>)

  predicate WellTyped(k: Kind, f: Field) {
    match k
    case Unsigned(w) => f.Number? && 0 <= f.n < Span(w)
    case Signed(w) => f.Number? && -(Span(w) / 2) <= f.n < Span(w) / 2
    case Boolean => f.Flag?
    case String(_) => f.Text?
    case WString(_) => f.Text?
    case SeqLen(_) => f.Number? && 0 <= f.n <= U32_MAX
    case ByteSeq(_) => f.Octets?
  }

  function AlignOf(k: Kind): Width {
    match k
    case Unsigned(w) => w
    case Signed(w) => w
    case Boolean => 1
    case _ => 4
  }

  // ---------------------------------------------------------------- encoding

  function Slots(e: Endian, t: Str): (s: seq<byte>)
    ensures |s| == 4 * |t|
  {
    if t == [] then [] else Encode(e, t[0], 4) + Slots(e, t[1..])
  }

  /** Octets of `f` once aligned. */
  function Body(k: Kind, f: Field, e: Endian): seq<byte>
    requires WellTyped(k, f)
  {
    match k
    case Unsigned(w) => Encode(e, f.n, w)
    case Signed(w) => Encode(e, FromSigned(f.n, w), w)
    case Boolean => [if f.b then 1 else 0]
    case String(_) => Encode(e, |ToUtf8(f.text)| + 1, 4) + ToUtf8(f.text) + [0]
    case WString(_) => Encode(e, |f.text|, 4) + Slots(e, f.text)
    case SeqLen(_) => Encode(e, f.n, 4)
    case ByteSeq(_) => Encode(e, |f.data|, 4) + f.data
  }

  /** Octets appended for `f` by a canonical writer standing at `at`. */
  function Emit(k: Kind, f: Field, e: Endian, at: nat): seq<byte>
    requires WellTyped(k, f) && BODY_ORIGIN <= at
  {
    Zeros(PaddingFor(at, AlignOf(k))) + Body(k, f, e)
  }

  // ---------------------------------------------------------------- decoding

  datatype Stream = Stream(bytes: seq<byte>, endian: Endian, limits: Limits, host: Host) {
    predicate Open() {
      limits.Accepted() && HEADER_LENGTH <= |bytes| <= limits.maxStream
    }
  }

  predicate Within(s: Stream, at: nat) {
    BODY_ORIGIN <= at <= |s.bytes|
  }

  /** Where an aligned field of `size` octets starts, or why it does not fit. */
  function Room(s: Stream, at: nat, align: Width, size: nat): (r: Parsed<nat>)
    requires Within(s, at)
    ensures r.Got? ==> r.value == r.next == at + PaddingFor(at, align) && r.next + size <= |s.bytes|
    ensures r.Bad? ==> |s.bytes| < at + PaddingFor(at, align) + size
  {
    var pad := PaddingFor(at, align);
    var rem := |s.bytes| - at;
    if rem < pad then Bad(Fault(AlignmentOverflow, at, pad, rem))
    else if rem < pad + size then Bad(Fault(Truncated, at, pad + size, rem))
    else Got(at + pad, at + pad)
  }

  function ParseUnsigned(s: Stream, at: nat, w: Width): (r: Parsed<nat>)
    requires Within(s, at)
    ensures r.Got? ==> at < r.next <= |s.bytes|
  {
    var (start, _) :- Room(s, at, w, w);
    Got(Decode(s.endian, s.bytes[start..start + w]), start + w)
  }

  function ParseSigned(s: Stream, at: nat, w: Width): (r: Parsed<int>)
    requires Within(s, at)
    ensures r.Got? ==> at < r.next <= |s.bytes|
  {
    var (v, next) :- ParseUnsigned(s, at, w);
    Got(ToSigned(v, w), next)
  }

  function ParseBool(s: Stream, at: nat): (r: Parsed<bool>)
    requires Within(s, at)
    ensures r.Got? ==> at < r.next <= |s.bytes|
  {
    var (v, next) :- ParseUnsigned(s, at, 1);
    if v > 1 then Bad(Fault(InvalidBoolean, at, 1, |s.bytes| - at)) else Got(v == 1, next)
  }

  predicate Over(n: nat, bound: Option<nat>) {
    bound.Some? && n > bound.value
  }

  function ParseString(s: Stream, at: nat, bound: Option<nat>): (r: Parsed<Str>)
    requires Within(s, at)
    ensures r.Got? ==> at < r.next <= |s.bytes|
  {
    var rem := |s.bytes| - at;
    var (len, start) :- ParseUnsigned(s, at, 4);
    if len == 0 then Bad(Fault(MissingStringTerminator, at, 1, rem))
    else if Over(len - 1, bound) then Bad(Fault(BoundsExceeded, at, len - 1, bound.value))
    else if len > s.limits.maxStream then Bad(Fault(LengthOverflow, at, len, s.limits.maxStream))
    else if start + len > |s.bytes| then Bad(Fault(Truncated, at, start - at + len, rem))
    else if 2 * (len - 1) > s.limits.maxTemp then
      Bad(Fault(BoundsExceeded, at, 2 * (len - 1), s.limits.maxTemp))
    else if s.bytes[start + len - 1] != 0 then Bad(Fault(MissingStringTerminator, at, len, rem))
    else
      match FromUtf8(s.bytes[start..start + len - 1])
      case None => Bad(Fault(InvalidUtf8, at, len, rem))
      case Some(text) => Got(text, start + len)
  }

  /** `n` wide-string slots from `at`, or nothing if one of them is not a scalar. */
  function ReadSlots(e: Endian, b: seq<byte>, at: nat, n: nat): (r: Option<Str>)
    requires at + 4 * n <= |b|
    ensures r.Some? ==> |r.value| == n
    decreases n
  {
    if n == 0 then Some([])
    else
      match ReadSlots(e, b, at, n - 1)
      case None => None
      case Some(init) =>
        var slot := Decode(e, b[at + 4 * (n - 1)..at + 4 * n]);
        if IsScalar(slot) then Some(init + [slot]) else None
  }

  function ParseWString(s: Stream, at: nat, bound: Option<nat>): (r: Parsed<Str>)
    requires Within(s, at)
    ensures r.Got? ==> at < r.next <= |s.bytes|
  {
    var rem := |s.bytes| - at;
    var (count, start) :- ParseUnsigned(s, at, 4);
    if Over(count, bound) then Bad(Fault(BoundsExceeded, at, count, bound.value))
    // A count whose span does not fit a 32-bit `usize` reports the sentinel `needed = 0`.
    else if 4 * count > s.host.Max() then Bad(Fault(LengthOverflow, at, 0, rem))
    else if 4 * count > s.limits.maxStream then
      Bad(Fault(LengthOverflow, at, 4 * count, s.limits.maxStream))
    else if start + 4 * count > |s.bytes| then Bad(Fault(Truncated, at, start - at + 4 * count, rem))
    else if 4 * count > s.limits.maxTemp then
      Bad(Fault(BoundsExceeded, at, 4 * count, s.limits.maxTemp))
    else
      match ReadSlots(s.endian, s.bytes, start, count)
      case None => Bad(Fault(InvalidWstringScalar, at, 4, rem))
      case Some(text) => Got(text, start + 4 * count)
  }

  function ParseSeqLen(s: Stream, at: nat, bound: Option<nat>): (r: Parsed<nat>)
    requires Within(s, at)
    ensures r.Got? ==> at < r.next <= |s.bytes|
  {
    var (count, next) :- ParseUnsigned(s, at, 4);
    if Over(count, bound) then Bad(Fault(BoundsExceeded, at, count, bound.value))
    else if count > s.limits.maxStream then
      Bad(Fault(BoundsExceeded, at, count, s.limits.maxStream))
    else Got(count, next)
  }

  /** The octets of the sequence; they are `s.bytes[next - |value|..next]`, in place. */
  function ParseByteSeq(s: Stream, at: nat, bound: Option<nat>): (r: Parsed<seq<byte>>)
    requires Within(s, at)
    ensures r.Got? ==> at + |r.value| < r.next <= |s.bytes| && r.value == s.bytes[r.next - |r.value|..r.next]
  {
    var (count, start) :- ParseSeqLen(s, at, bound);
    if start + count > |s.bytes| then
      Bad(Fault(Truncated, at, start - at + count, |s.bytes| - at))
    else Got(s.bytes[start..start + count], start + count)
  }

  function Parse(k: Kind, s: Stream, at: nat): (r: Parsed<Field>)
    requires Within(s, at)
    ensures r.Got? ==> at < r.next <= |s.bytes|
  {
    match k
    case Unsigned(w) => var (v, n) :- ParseUnsigned(s, at, w); Got(Number(v), n)
    case Signed(w) => var (v, n) :- ParseSigned(s, at, w); Got(Number(v), n)
    case Boolean => var (v, n) :- ParseBool(s, at); Got(Flag(v), n)
    case String(b) => var (v, n) :- ParseString(s, at, b); Got(Text(v), n)
    case WString(b) => var (v, n) :- ParseWString(s, at, b); Got(Text(v), n)
    case SeqLen(b) => var (v, n) :- ParseSeqLen(s, at, b); Got(Number(v), n)
    case ByteSeq(b) => var (v, n) :- ParseByteSeq(s, at, b); Got(Octets(v), n)
  }

  // ---------------------------------------------------------------- one field there and back

  /** Conditions under which a value that was written is also read. */
  predicate Readable(k: Kind, f: Field, s: Stream)
    requires WellTyped(k, f)
  {
    match k
    case String(b) => !Over(|ToUtf8(f.text)|, b) && |ToUtf8(f.text)| < U32_MAX && 2 * |ToUtf8(f.text)| <= s.limits.maxTemp
    case WString(b) => !Over(|f.text|, b) && |f.text| <= U32_MAX && 4 * |f.text| <= s.limits.maxTemp
    case SeqLen(b) => !Over(f.n, b) && f.n <= s.limits.maxStream
    case ByteSeq(b) => !Over(|f.data|, b) && |f.data| <= U32_MAX
    case _ => true
  }

  /** The field's octets lie at `at`, whatever the padding in front of them holds. */
  predicate Holds(k: Kind, f: Field, s: Stream, at: nat)
    requires WellTyped(k, f) && BODY_ORIGIN <= at
  {
    var start := at + PaddingFor(at, AlignOf(k));
    var body := Body(k, f, s.endian);
    start + |body| <= |s.bytes| && s.bytes[start..start + |body|] == body
  }

  lemma {:induction false} ParseUnsignedOf(s: Stream, at: nat, w: Width, v: nat)
    requires Within(s, at) && v < Span(w)
    requires var start := at + PaddingFor(at, w);
             start + w <= |s.bytes| && s.bytes[start..start + w] == Encode(s.endian, v, w)
    ensures ParseUnsigned(s, at, w) == Got(v, at + PaddingFor(at, w) + w)
  {
    DecodeEncode(s.endian, v, w);
  }

  lemma {:induction false} Slice(b: seq<byte>, at: nat, len: nat, i: nat, j: nat)
    requires at + len <= |b| && i <= j <= len
    ensures b[at..at + len][i..j] == b[at + i..at + j]
  {
    var whole, part := b[at..at + len], b[at + i..at + j];
    assert forall k :: 0 <= k < |part| ==> part[k] == whole[i..j][k];
  }

  lemma {:induction false} ReadSlotsOf(e: Endian, b: seq<byte>, at: nat, t: Str, n: nat)
    requires n <= |t| && at + 4 * |t| <= |b| && b[at..at + 4 * |t|] == Slots(e, t)
    ensures ReadSlots(e, b, at, n) == Some(t[..n])
    decreases n
  {
    if n > 0 {
      ReadSlotsOf(e, b, at, t, n - 1);
      ReadSlotOf(e, b, at, t, n - 1);
      assert t[..n] == t[..n - 1] + [t[n - 1]];
    }
  }

  lemma {:induction false} ReadSlotOf(e: Endian, b: seq<byte>, at: nat, t: Str, i: nat)
    requires i < |t| && at + 4 * |t| <= |b| && b[at..at + 4 * |t|] == Slots(e, t)
    ensures Decode(e, b[at + 4 * i..at + 4 * (i + 1)]) == t[i]
  {
    SlotAt(e, t, i);
    Slice(b, at, 4 * |t|, 4 * i, 4 * i + 4);
    SpanValues();
    DecodeEncode(e, t[i], 4);
  }

  lemma {:induction false} SlotAt(e: Endian, t: Str, i: nat)
    requires i < |t|
    ensures Slots(e, t)[4 * i..4 * i + 4] == Encode(e, t[i], 4)
  {
    if i > 0 {
      SlotAt(e, t[1..], i - 1);
      assert Slots(e, t)[4 * i..4 * i + 4] == Slots(e, t[1..])[4 * (i - 1)..4 * (i - 1) + 4];
    }
  }

  lemma {:induction false} HeadAndTail(s: Stream, k: Kind, f: Field, at: nat, v: nat, tail: seq<byte>)
    requires Within(s, at) && WellTyped(k, f) && AlignOf(k) == 4 && v <= U32_MAX
    requires Holds(k, f, s, at) && Body(k, f, s.endian) == Encode(s.endian, v, 4) + tail
    ensures var start := at + PaddingFor(at, 4) + 4;
            && ParseUnsigned(s, at, 4) == Got(v, start)
            && start + |tail| <= |s.bytes| && s.bytes[start..start + |tail|] == tail
  {
    var start := at + PaddingFor(at, 4);
    var body := Body(k, f, s.endian);
    assert s.bytes[start..start + 4] == s.bytes[start..start + |body|][..4] == body[..4];
    assert s.bytes[start + 4..start + 4 + |tail|] == s.bytes[start..start + |body|][4..] == body[4..];
    SpanValues();
    ParseUnsignedOf(s, at, 4, v);
  }

  lemma {:induction false} ParseBoolOfHeld(k: Kind, f: Field, s: Stream, at: nat)
    requires Within(s, at) && k.Boolean? && WellTyped(k, f) && Holds(k, f, s, at)
    ensures ParseBool(s, at) == Got(f.b, at + PaddingFor(at, 1) + 1)
  {
    var start := at + PaddingFor(at, 1);
    assert s.bytes[start] == s.bytes[start..start + 1][0];
    DecodeByte(s.endian, s.bytes[start]);
  }

  lemma {:induction false} DecodeByte(e: Endian, b: byte)
    ensures Decode(e, [b]) == b
  {
    assert Reverse([b]) == [b] && [b][1..] == [];
    assert Value([b]) == b;
  }

  /** `ParseString` accepts exactly this. */
  lemma {:induction false} StringAccepted(s: Stream, at: nat, bound: Option<nat>, text: Str, next: nat)
    requires s.Open() && Within(s, at)
    ensures ParseString(s, at, bound) == Got(text, next) <==>
            exists start: nat, len: nat :: StringAt(s, at, bound, text, next, start, len)
  {
    hide Decode, PaddingFor, FromUtf8, ParseUnsigned;
    var head := ParseUnsigned(s, at, 4);
    if ParseString(s, at, bound) == Got(text, next) {
      assert StringAt(s, at, bound, text, next, head.next, head.value);
    }
  }

  predicate StringAt(s: Stream, at: nat, bound: Option<nat>, text: Str, next: nat, start: nat, len: nat)
    requires Within(s, at)
  {
    && ParseUnsigned(s, at, 4) == Got(len, start)
    && 1 <= len <= s.limits.maxStream && !Over(len - 1, bound) && 2 * (len - 1) <= s.limits.maxTemp
    && next == start + len <= |s.bytes|
    && s.bytes[next - 1] == 0
    && FromUtf8(s.bytes[start..next - 1]) == Some(text)
  }

  lemma {:induction false} ParseStringOfHeld(k: Kind, f: Field, s: Stream, at: nat)
    requires s.Open() && Within(s, at) && k.String? && WellTyped(k, f) && Holds(k, f, s, at) && Readable(k, f, s)
    ensures ParseString(s, at, k.bound) == Got(f.text, at + PaddingFor(at, 4) + |Body(k, f, s.endian)|)
  {
    hide Encode, Decode, PaddingFor, ToUtf8, FromUtf8, ParseString;
    var u := ToUtf8(f.text);
    var start := at + PaddingFor(at, 4) + 4;
    var next := start + |u| + 1;
    assert Body(k, f, s.endian) == Encode(s.endian, |u| + 1, 4) + (u + [0]);
    HeadAndTail(s, k, f, at, |u| + 1, u + [0]);
    Slice(s.bytes, start, |u| + 1, 0, |u|);
    assert s.bytes[start + |u|] == s.bytes[start..start + |u| + 1][|u|];
    FromToUtf8(f.text);
    assert StringAt(s, at, k.bound, f.text, next, start, |u| + 1);
    StringAccepted(s, at, k.bound, f.text, next);
  }

  lemma {:induction false} ParseWStringOfHeld(k: Kind, f: Field, s: Stream, at: nat)
    requires s.Open() && Within(s, at) && k.WString? && WellTyped(k, f) && Holds(k, f, s, at) && Readable(k, f, s)
    ensures ParseWString(s, at, k.bound) == Got(f.text, at + PaddingFor(at, 4) + |Body(k, f, s.endian)|)
  {
    HeadAndTail(s, k, f, at, |f.text|, Slots(s.endian, f.text));
    ReadSlotsOf(s.endian, s.bytes, at + PaddingFor(at, 4) + 4, f.text, |f.text|);
    assert f.text[..|f.text|] == f.text;
  }

  /** Decoding undoes encoding: a field whose octets lie in the stream is read back, and
      the cursor lands right after it, whatever the padding in front of it holds. */
  lemma {:induction false} ParseOfHeld(k: Kind, f: Field, s: Stream, at: nat)
    requires s.Open() && Within(s, at) && WellTyped(k, f) && Holds(k, f, s, at) && Readable(k, f, s)
    ensures Parse(k, s, at) == Got(f, at + PaddingFor(at, AlignOf(k)) + |Body(k, f, s.endian)|)
  {
    hide Encode, Decode, PaddingFor, ToUtf8, FromUtf8, Slots, ReadSlots, ParseString, ParseWString, ParseBool;
    match k
    case Unsigned(w) => ParseUnsignedOf(s, at, w, f.n);
    case Signed(w) =>
      SignedBijection(0, f.n, w);
      ParseUnsignedOf(s, at, w, FromSigned(f.n, w));
    case Boolean => ParseBoolOfHeld(k, f, s, at);
    case String(_) => ParseStringOfHeld(k, f, s, at);
    case WString(_) => ParseWStringOfHeld(k, f, s, at);
    case SeqLen(_) => HeadAndTail(s, k, f, at, f.n, []);
    case ByteSeq(_) => HeadAndTail(s, k, f, at, |f.data|, f.data);
  }

  lemma {:induction false} SlotsOfRead(e: Endian, b: seq<byte>, at: nat, n: nat)
    requires at + 4 * n <= |b|
    requires ReadSlots(e, b, at, n).Some?
    ensures Slots(e, ReadSlots(e, b, at, n).value) == b[at..at + 4 * n]
    decreases n
  {
    hide Encode, Decode;
    if n > 0 {
      SlotsOfRead(e, b, at, n - 1);
      var init := ReadSlots(e, b, at, n - 1).value;
      var mid := at + 4 * (n - 1);
      var last := b[mid..mid + 4];
      var c := Decode(e, last);
      EncodeDecode(e, last);
      assert ReadSlots(e, b, at, n).value == init + [c];
      SlotsAppend(e, init, c);
      Join(b, at, mid, mid + 4);
    }
  }

  lemma {:induction false} Join(b: seq<byte>, i: nat, j: nat, k: nat)
    requires i <= j <= k <= |b|
    ensures b[i..k] == b[i..j] + b[j..k]
  {
  }

  lemma {:induction false} SlotsAppend(e: Endian, t: Str, c: Scalar)
    ensures Slots(e, t + [c]) == Slots(e, t) + Encode(e, c, 4)
  {
    hide Encode;
    if t == [] {
      assert Slots(e, []) == [];
      assert [] + [c] == [c] && [c][1..] == [];
    } else {
      SlotsAppend(e, t[1..], c);
      assert (t + [c])[1..] == t[1..] + [c];
    }
  }

  /** What a parse found at `at`, and that it took exactly those octets. */
  ghost predicate Spelled(k: Kind, s: Stream, at: nat)
    requires Within(s, at)
  {
    var p := Parse(k, s, at);
    p.Got? ==>
      && WellTyped(k, p.value) && Readable(k, p.value, s) && Holds(k, p.value, s, at)
      && p.next == at + PaddingFor(at, AlignOf(k)) + |Body(k, p.value, s.endian)|
  }

  lemma {:induction false} UnsignedSpelled(s: Stream, at: nat, w: Width)
    requires Within(s, at) && ParseUnsigned(s, at, w).Got?
    ensures var start := at + PaddingFor(at, w);
            var v := ParseUnsigned(s, at, w).value;
            v < Span(w) && Encode(s.endian, v, w) == s.bytes[start..start + w]
  {
    var start := at + PaddingFor(at, w);
    EncodeDecode(s.endian, s.bytes[start..start + w]);
  }

  lemma {:induction false} StringSpelled(k: Kind, s: Stream, at: nat)
    requires s.Open() && Within(s, at) && k.String? && Parse(k, s, at).Got?
    ensures Spelled(k, s, at)
  {
    hide Encode, Decode, ToUtf8, FromUtf8, PaddingFor, StringAt, ParseString;
    var p := ParseString(s, at, k.bound);
    StringAccepted(s, at, k.bound, p.value, p.next);
    var start: nat, len: nat :| StringAt(s, at, k.bound, p.value, p.next, start, len);
    StringSpelledAt(k, s, at, p.value, p.next, start, len);
    assert Parse(k, s, at) == Got(Text(p.value), p.next);
  }

  lemma {:induction false} StringSpelledAt(k: Kind, s: Stream, at: nat, text: Str, next: nat, start: nat, len: nat)
    requires s.Open() && Within(s, at) && k.String? && StringAt(s, at, k.bound, text, next, start, len)
    ensures Holds(k, Text(text), s, at) && Readable(k, Text(text), s)
    ensures next == at + PaddingFor(at, 4) + |Body(k, Text(text), s.endian)|
  {
    hide Encode, Decode, ToUtf8, FromUtf8, PaddingFor;
    UnsignedSpelled(s, at, 4);
    ToFromUtf8(s.bytes[start..next - 1]);
    StringHeld(k, s, at, text, ToUtf8(text));
  }

  lemma {:induction false} StringHeld(k: Kind, s: Stream, at: nat, text: Str, u: seq<byte>)
    requires Within(s, at) && k.String? && u == ToUtf8(text)
    requires var start := at + PaddingFor(at, 4);
             && start + 4 + |u| < |s.bytes| && s.bytes[start..start + 4] == Encode(s.endian, |u| + 1, 4)
             && s.bytes[start + 4..start + 4 + |u|] == u && s.bytes[start + 4 + |u|] == 0
    ensures Holds(k, Text(text), s, at) && |Body(k, Text(text), s.endian)| == |u| + 5
  {
    hide Encode, Decode, ToUtf8, PaddingFor;
    var start := at + PaddingFor(at, 4);
    Join(s.bytes, start, start + 4, start + 4 + |u|);
    Join(s.bytes, start, start + 4 + |u|, start + 5 + |u|);
    assert s.bytes[start + 4 + |u|..start + 5 + |u|] == [0];
  }

  lemma {:induction false} WStringSpelled(k: Kind, s: Stream, at: nat)
    requires s.Open() && Within(s, at) && k.WString? && Parse(k, s, at).Got?
    ensures Spelled(k, s, at)
  {
    hide Encode, Decode, Slots, ReadSlots, PaddingFor;
    UnsignedSpelled(s, at, 4);
    SpanValues();
    var start := at + PaddingFor(at, 4) + 4;
    var count := ParseUnsigned(s, at, 4).value;
    SlotsOfRead(s.endian, s.bytes, start, count);
    assert s.bytes[start - 4..start + 4 * count] == s.bytes[start - 4..start] + s.bytes[start..start + 4 * count];
  }

  lemma {:induction false} ByteSeqSpelled(k: Kind, s: Stream, at: nat)
    requires s.Open() && Within(s, at) && k.ByteSeq? && Parse(k, s, at).Got?
    ensures Spelled(k, s, at)
  {
    hide Encode, Decode, PaddingFor;
    UnsignedSpelled(s, at, 4);
    SpanValues();
    var start := at + PaddingFor(at, 4) + 4;
    var count := ParseUnsigned(s, at, 4).value;
    assert s.bytes[start - 4..start + count] == s.bytes[start - 4..start] + s.bytes[start..start + count];
  }

  lemma {:induction false} BoolSpelled(k: Kind, s: Stream, at: nat)
    requires s.Open() && Within(s, at) && k.Boolean? && Parse(k, s, at).Got?
    ensures Spelled(k, s, at)
  {
    hide Decode, PaddingFor;
    var start := at + PaddingFor(at, 1);
    assert s.bytes[start..start + 1] == [s.bytes[start]];
    DecodeByte(s.endian, s.bytes[start]);
  }

  lemma {:induction false} NumberSpelled(k: Kind, s: Stream, at: nat)
    requires s.Open() && Within(s, at) && (k.Unsigned? || k.Signed? || k.SeqLen?) && Parse(k, s, at).Got?
    ensures Spelled(k, s, at)
  {
    hide Decode, Encode, PaddingFor;
    var w := AlignOf(k);
    UnsignedSpelled(s, at, w);
    SignedBijection(ParseUnsigned(s, at, w).value, 0, w);
    SpanValues();
  }

  /** Encoding undoes decoding: what an accepted field reads as has exactly the octets it
      was read from, after the padding. */
  lemma {:induction false} HeldOfParse(k: Kind, s: Stream, at: nat)
    requires s.Open() && Within(s, at) && Parse(k, s, at).Got?
    ensures Spelled(k, s, at)
  {
    hide Parse, Spelled;
    match k
    case Boolean => BoolSpelled(k, s, at);
    case String(_) => StringSpelled(k, s, at);
    case WString(_) => WStringSpelled(k, s, at);
    case ByteSeq(_) => ByteSeqSpelled(k, s, at);
    case _ => NumberSpelled(k, s, at);
  }

  predicate SameOutcome<T(==)>(a: Parsed<T>, b: Parsed<T>) {
    if a.Got? then a == b else b.Bad? && a.fault.code == b.fault.code
  }

  lemma {:induction false} UnsignedHostIndependent(s: Stream, host: Host, at: nat, w: Width)
    requires Within(s, at)
    ensures ParseUnsigned(s, at, w) == ParseUnsigned(s.(host := host), at, w)
  {
    assert Room(s, at, w, w) == Room(s.(host := host), at, w, w);
  }

  /** Whether and how a field is accepted does not depend on the pointer width; only the
      numbers in a fault can, and only for a wide string. */
  lemma {:induction false} AcceptanceIsHostIndependent(k: Kind, s: Stream, host: Host, at: nat)
    requires s.Open() && Within(s, at)
    ensures var t := s.(host := host);
            Within(t, at) && SameOutcome(Parse(k, s, at), Parse(k, t, at))
            && (!k.WString? ==> Parse(k, s, at) == Parse(k, t, at))
  {
    hide Decode, FromUtf8, ReadSlots, PaddingFor, ParseUnsigned;
    var t := s.(host := host);
    var w := AlignOf(k);
    UnsignedHostIndependent(s, host, at, w);
    match k
    case Unsigned(_) =>
    case Signed(_) => assert ParseSigned(s, at, w) == ParseSigned(t, at, w);
    case Boolean => assert ParseBool(s, at) == ParseBool(t, at);
    case String(b) => assert ParseString(s, at, b) == ParseString(t, at, b);
    case WString(b) => assert SameOutcome(ParseWString(s, at, b), ParseWString(t, at, b));
    case SeqLen(b) => assert ParseSeqLen(s, at, b) == ParseSeqLen(t, at, b);
    case ByteSeq(b) =>
      assert ParseSeqLen(s, at, b) == ParseSeqLen(t, at, b);
      assert ParseByteSeq(s, at, b) == ParseByteSeq(t, at, b);
  }
}
