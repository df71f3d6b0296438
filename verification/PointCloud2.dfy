/** `sensor_msgs/msg/PointCloud2` over the CDR reader and writer. The point payload is
    borrowed: a decoded cloud's `data` is a span of the input. */
module PointCloud2 {
  import opened ByteOrder
  import opened CdrLimits
  import opened Outcomes
  import opened Utf8
  import opened CdrSyntax
  import opened CdrRoundTrip
  import opened CdrReader
  import opened CdrWriter

  type U32 = n: nat | n <= U32_MAX
  type I32 = n: int | -0x8000_0000 <= n <= 0x7FFF_FFFF

  datatype PointField = PointField(name: Str, offset: U32, datatypeCode: byte, count: U32)
  datatype CloudHeader = CloudHeader(stampSec: I32, stampNanosec: U32, frameId: Str)
  datatype Cloud = Cloud(
    header: CloudHeader, height: U32, width: U32, fields: seq<PointField>, isBigendian: bool,
    pointStep: U32, rowStep: U32, data: seq<byte>, isDense: bool)

  /** A decoded cloud and where its borrowed `data` starts in the input. */
  datatype Decoded = Decoded(cloud: Cloud, dataStart: nat)

  // ---------------------------------------------------------------- layout

  lemma {:induction false} Ranges()
    ensures Span(4) == U32_MAX + 1 && Span(4) / 2 == 0x8000_0000 && Span(1) == 256
  {
    SpanValues();
  }

  function U32Item(n: U32): Item {
    Ranges();
    (Unsigned(4), Number(n))
  }

  function HeaderItems(h: CloudHeader): (items: seq<Item>)
    ensures |items| == 3
  {
    Ranges();
    [(Signed(4), Number(h.stampSec)), U32Item(h.stampNanosec), (String(None), Text(h.frameId))]
  }

  /** The count travels through a truncating cast, `fields.len() as u32`. */
  function DimItems(c: Cloud): seq<Item> {
    [U32Item(c.height), U32Item(c.width), (SeqLen(None), Number(|c.fields| % (U32_MAX + 1)))]
  }

  function FieldItems(f: PointField): seq<Item> {
    Ranges();
    [(String(None), Text(f.name)), U32Item(f.offset), (Unsigned(1), Number(f.datatypeCode)), U32Item(f.count)]
  }

  function AllFieldItems(fs: seq<PointField>): seq<Item> {
    if fs == [] then [] else AllFieldItems(fs[..|fs| - 1]) + FieldItems(fs[|fs| - 1])
  }

  function TailItems(c: Cloud): seq<Item> {
    [(Boolean, Flag(c.isBigendian)), U32Item(c.pointStep), U32Item(c.rowStep), (ByteSeq(None), Octets(c.data)),
     (Boolean, Flag(c.isDense))]
  }

  function CloudItems(c: Cloud): seq<Item> {
    HeaderItems(c.header) + DimItems(c) + AllFieldItems(c.fields) + TailItems(c)
  }

  // ---------------------------------------------------------------- decoding

  function ParseU32(s: Stream, at: nat): (r: Parsed<U32>)
    requires Within(s, at)
    ensures r.Got? ==> at < r.next <= |s.bytes|
    ensures r == ParseUnsigned(s, at, 4)
  {
    hide Decode;
    UnsignedRange(s, at, 4);
    Ranges();
    ParseUnsigned(s, at, 4)
  }

  lemma {:induction false} UnsignedRange(s: Stream, at: nat, w: Width)
    requires Within(s, at)
    ensures ParseUnsigned(s, at, w).Got? ==> ParseUnsigned(s, at, w).value < Span(w)
  {
    hide Encode, Decode;
    if ParseUnsigned(s, at, w).Got? {
      UnsignedSpelled(s, at, w);
    }
  }

  function ParseHeader(s: Stream, at: nat): (r: Parsed<CloudHeader>)
    requires Within(s, at)
    ensures r.Got? ==> at < r.next <= |s.bytes|
  {
    UnsignedRange(s, at, 4);
    Ranges();
    SignedBijection(if ParseUnsigned(s, at, 4).Got? then ParseUnsigned(s, at, 4).value else 0, 0, 4);
    var (sec, a) :- ParseSigned(s, at, 4);
    var (nanosec, b) :- ParseU32(s, a);
    var (frameId, c) :- ParseString(s, b, None);
    Got(CloudHeader(sec, nanosec, frameId), c)
  }

  function ParsePointField(s: Stream, at: nat): (r: Parsed<PointField>)
    requires Within(s, at)
    ensures r.Got? ==> at < r.next <= |s.bytes|
  {
    var (name, a) :- ParseString(s, at, None);
    var (offset, b) :- ParseU32(s, a);
    UnsignedRange(s, b, 1);
    Ranges();
    var (code, c) :- ParseUnsigned(s, b, 1);
    var (count, d) :- ParseU32(s, c);
    Got(PointField(name, offset, code, count), d)
  }

  function ParsePointFields(s: Stream, at: nat, n: nat): (r: Parsed<seq<PointField>>)
    requires Within(s, at)
    ensures r.Got? ==> at <= r.next <= |s.bytes| && |r.value| == n
    decreases n
  {
    if n == 0 then Got([], at)
    else
      var (init, a) :- ParsePointFields(s, at, n - 1);
      var (f, b) :- ParsePointField(s, a);
      Got(init + [f], b)
  }

  /** The members after the field list, added to the `c` decoded so far. The data span
      lies inside the stream. */
  function ParseTail(s: Stream, at: nat, c: Cloud): (r: Parsed<Decoded>)
    requires Within(s, at)
    ensures r.Got? ==> at < r.next <= |s.bytes|
    ensures r.Got? ==>
      var d := r.value;
      && d.cloud.header == c.header && d.cloud.height == c.height && d.cloud.width == c.width && d.cloud.fields == c.fields
      && BODY_ORIGIN <= d.dataStart && d.dataStart + |d.cloud.data| <= |s.bytes|
      && d.cloud.data == s.bytes[d.dataStart..d.dataStart + |d.cloud.data|]
  {
    var (isBigendian, a1) :- ParseBool(s, at);
    var (pointStep, a2) :- ParseU32(s, a1);
    var (rowStep, a3) :- ParseU32(s, a2);
    var (data, a4) :- ParseByteSeq(s, a3, None);
    var (isDense, a5) :- ParseBool(s, a4);
    Got(Decoded(Cloud(c.header, c.height, c.width, c.fields, isBigendian, pointStep, rowStep, data, isDense), a4 - |data|), a5)
  }

  function ParseCloud(s: Stream, at: nat): (r: Parsed<Decoded>)
    requires Within(s, at)
    ensures r.Got? ==> at < r.next <= |s.bytes|
  {
    // The header is one aggregate deep and its time stamp two.
    if s.limits.maxDepth < 2 then Bad(Fault(BoundsExceeded, at, s.limits.maxDepth + 1, s.limits.maxDepth))
    else
      var (header, a) :- ParseHeader(s, at);
      var (height, b) :- ParseU32(s, a);
      var (width, c) :- ParseU32(s, b);
      var (count, d) :- ParseSeqLen(s, c, None);
      var (fields, e) :- ParsePointFields(s, d, count);
      ParseTail(s, e, Cloud(header, height, width, fields, false, 0, 0, [], false))
  }

  /** Like `Yields`, except that a failed aggregate leaves the cursor wherever it was. */
  predicate Reaches<T(==)>(r: Result<T>, after: nat, p: Parsed<T>) {
    match p
    case Got(v, next) => r == Ok(v) && after == next
    case Bad(fault) => r == Err(fault)
  }

  method DecodeHeader(reader: CdrReader) returns (r: Result<CloudHeader>)
    requires reader.Valid()
    modifies reader`offset
    ensures reader.Valid()
    ensures reader.limits.maxDepth >= 2 ==> Reaches(r, reader.offset, ParseHeader(reader.View(), old(reader.offset)))
    ensures reader.limits.maxDepth < 2 ==>
      r == Err(Fault(BoundsExceeded, old(reader.offset), reader.limits.maxDepth + 1, reader.limits.maxDepth))
  {
    hide ParseSigned, ParseUnsigned, ParseString, Span;
    Ranges();
    var current := reader.EnterNested(0);
    if current.Err? {
      assert false;  // every limit admits one level
    }
    var time :- reader.EnterNested(current.value);
    var sec :- reader.ReadSigned(4);
    var nanosec :- reader.ReadUnsigned(4);
    var frameId :- reader.ReadString(None);
    return Ok(CloudHeader(sec, nanosec, frameId));
  }

  method DecodePointField(reader: CdrReader) returns (r: Result<PointField>)
    requires reader.Valid()
    modifies reader`offset
    ensures reader.Valid()
    ensures Reaches(r, reader.offset, ParsePointField(reader.View(), old(reader.offset)))
  {
    hide ParseUnsigned, ParseString, Span;
    Ranges();
    var name :- reader.ReadString(None);
    var offset :- reader.ReadUnsigned(4);
    var code :- reader.ReadUnsigned(1);
    var count :- reader.ReadUnsigned(4);
    return Ok(PointField(name, offset, code, count));
  }

  /** The field loop of `decode_point_cloud2_nested`. */
  method DecodeFields(reader: CdrReader, count: nat) returns (r: Result<seq<PointField>>)
    requires reader.Valid()
    modifies reader`offset
    ensures reader.Valid()
    ensures Reaches(r, reader.offset, ParsePointFields(reader.View(), old(reader.offset), count))
  {
    hide ParsePointField;
    var fields: seq<PointField> := [];
    ghost var start := reader.offset;
    for i := 0 to count
      invariant reader.Valid()
      invariant ParsePointFields(reader.View(), start, i) == Got(fields, reader.offset)
    {
      var nest := reader.EnterNested(0);
      if nest.Err? {
        assert false;
      }
      r := DecodePointFieldAt(reader, fields, start, i, count);
      if r.Err? {
        return;
      }
      fields := r.value;
    }
    return Ok(fields);
  }

  method DecodePointFieldAt(reader: CdrReader, fields: seq<PointField>, ghost start: nat, ghost i: nat, ghost count: nat)
    returns (r: Result<seq<PointField>>)
    requires reader.Valid() && Within(reader.View(), start) && i < count
    requires ParsePointFields(reader.View(), start, i) == Got(fields, reader.offset)
    modifies reader`offset
    ensures reader.Valid()
    ensures r.Ok? ==> ParsePointFields(reader.View(), start, i + 1) == Got(r.value, reader.offset)
    ensures r.Err? ==> ParsePointFields(reader.View(), start, count) == Bad(r.fault)
  {
    hide ParsePointField;
    var f := DecodePointField(reader);
    if f.Err? {
      FieldsStuck(reader.View(), start, i + 1, count);
      return Err(f.fault);
    }
    return Ok(fields + [f.value]);
  }

  lemma {:induction false} FieldsStuck(s: Stream, at: nat, k: nat, n: nat)
    requires Within(s, at) && k <= n && ParsePointFields(s, at, k).Bad?
    ensures ParsePointFields(s, at, n) == Bad(ParsePointFields(s, at, k).fault)
    decreases n
  {
    hide ParsePointField;
    if k < n {
      FieldsStuck(s, at, k, n - 1);
    }
  }

  method DecodeTail(reader: CdrReader, c: Cloud) returns (r: Result<Decoded>)
    requires reader.Valid()
    modifies reader`offset
    ensures reader.Valid()
    ensures Reaches(r, reader.offset, ParseTail(reader.View(), old(reader.offset), c))
  {
    hide ParseUnsigned, ParseBool, Span;
    Ranges();
    var isBigendian :- reader.ReadBool();
    var pointStep :- reader.ReadUnsigned(4);
    var rowStep :- reader.ReadUnsigned(4);
    var data :- reader.ReadByteSequence(None);
    var dataStart := reader.offset - |data|;
    var isDense :- reader.ReadBool();
    return Ok(Decoded(Cloud(c.header, c.height, c.width, c.fields, isBigendian, pointStep, rowStep, data, isDense), dataStart));
  }

  /** `decode_point_cloud2`. */
  method DecodePointCloud2(reader: CdrReader) returns (r: Result<Decoded>)
    requires reader.Valid()
    modifies reader`offset
    ensures reader.Valid()
    ensures Reaches(r, reader.offset, ParseCloud(reader.View(), old(reader.offset)))
  {
    hide ParseHeader, ParseUnsigned, ParseSeqLen, ParsePointFields, ParseTail, Span;
    Ranges();
    var header :- DecodeHeader(reader);
    var height :- reader.ReadUnsigned(4);
    var width :- reader.ReadUnsigned(4);
    var count :- reader.ReadSequenceLength(None);
    var fields :- DecodeFields(reader, count);
    r := DecodeTail(reader, Cloud(header, height, width, fields, false, 0, 0, [], false));
  }

  /** What `decode_point_cloud2_le` makes of a buffer: the whole of it must be one cloud. */
  function DecodeLe(b: seq<byte>, host: Host): Result<Decoded> {
    var s :- OpenStream(b, DEFAULTS, host);
    match ParseCloud(s, BODY_ORIGIN)
    case Bad(fault) => Err(fault)
    case Got(d, next) =>
      if next < |b| then Err(Fault(TrailingData, next, 0, |b| - next)) else Ok(d)
  }

  method DecodePointCloud2Le(b: seq<byte>, host: Host) returns (r: Result<Decoded>)
    ensures r == DecodeLe(b, host)
  {
    hide ParseCloud;
    var reader :- Open(b, DEFAULTS, host);
    var d :- DecodePointCloud2(reader);
    var _ :- reader.EnsureCompleteWithZeroTail(0);
    return Ok(d);
  }

  // ---------------------------------------------------------------- encoding

  /** `items` were written: the buffer grew by them, or the writer reported why not. */
  ghost predicate Appended(w: CdrWriter, items: seq<Item>, before: seq<byte>, r: Result<()>)
    requires w.limits.Accepted() && BODY_ORIGIN <= |before| <= WriterCapacity(w.limits)
    reads w
  {
    match WriteAll(items, w.endian, w.limits, before)
    case Ok(after) => r == Ok(()) && w.buf == after
    case Err(fault) => r == Err(fault)
  }

  /** A writer method accepts at most 64 MiB; no Rust string or slice exceeds this. */
  predicate Allocated(c: Cloud, host: Host) {
    && |ToUtf8(c.header.frameId)| <= host.MaxLen() && |c.data| <= host.MaxLen()
    && forall i :: 0 <= i < |c.fields| ==> |ToUtf8(c.fields[i].name)| <= host.MaxLen()
  }

  /** The fault of one aggregate too many. */
  function TooDeep(w: CdrWriter): Fault
    reads w
  {
    Fault(BoundsExceeded, |w.buf|, w.limits.maxDepth + 1, w.limits.maxDepth)
  }

  method EncodeHeader(w: CdrWriter, h: CloudHeader) returns (r: Result<()>)
    requires w.Valid() && |ToUtf8(h.frameId)| <= w.host.MaxLen()
    modifies w`buf
    ensures w.Valid()
    ensures w.limits.maxDepth >= 2 ==> Appended(w, HeaderItems(h), old(w.buf), r)
    ensures w.limits.maxDepth < 2 ==> w.buf == old(w.buf) && r == Err(TooDeep(w))
  {
    hide Write, WriteAll, ToUtf8, Span;
    Ranges();
    ghost var items := HeaderItems(h);
    var current := w.EnterNested(0);
    if current.Err? {
      assert false;
    }
    var time :- w.EnterNested(current.value);
    Head(w, items, items[..1], items[1..]);
    var _ :- w.WriteSigned(4, h.stampSec);
    Head(w, items[1..], items[1..2], items[2..]);
    var _ :- w.WriteUnsigned(4, h.stampNanosec);
    Head(w, items[2..], items[2..3], []);
    r := w.WriteString(h.frameId, None);
    Last(w);
  }

  /** What remains of writing `items` once the first of them is written. */
  lemma {:induction false} Head(w: CdrWriter, items: seq<Item>, first: seq<Item>, rest: seq<Item>)
    requires w.Valid() && |first| == 1 && items == first + rest
    ensures WriteAll(items, w.endian, w.limits, w.buf) ==
            match Write(first[0].0, first[0].1, w.endian, w.limits, w.buf)
            case Err(fault) => Err(fault)
            case Ok(mid) => WriteAll(rest, w.endian, w.limits, mid)
  {
    hide Write;
    assert first == [first[0]];
    WriteAllCons(first[0], rest, w.endian, w.limits, w.buf);
  }

  lemma {:induction false} Last(w: CdrWriter)
    requires w.Valid()
    ensures WriteAll([], w.endian, w.limits, w.buf) == Ok(w.buf)
  {
  }

  method EncodeDims(w: CdrWriter, c: Cloud) returns (r: Result<()>)
    requires w.Valid()
    modifies w`buf
    ensures w.Valid() && Appended(w, DimItems(c), old(w.buf), r)
  {
    hide Write, WriteAll, Span;
    Ranges();
    ghost var items := DimItems(c);
    Head(w, items, items[..1], items[1..]);
    var _ :- w.WriteUnsigned(4, c.height);
    Head(w, items[1..], items[1..2], items[2..]);
    var _ :- w.WriteUnsigned(4, c.width);
    Head(w, items[2..], items[2..3], []);
    r := w.WriteSequenceLength(|c.fields| % (U32_MAX + 1), None);
    Last(w);
  }

  method EncodePointField(w: CdrWriter, f: PointField) returns (r: Result<()>)
    requires w.Valid() && |ToUtf8(f.name)| <= w.host.MaxLen()
    modifies w`buf
    ensures w.Valid() && Appended(w, FieldItems(f), old(w.buf), r)
  {
    hide Write, WriteAll, ToUtf8, Span;
    Ranges();
    ghost var items := FieldItems(f);
    Head(w, items, items[..1], items[1..]);
    var _ :- w.WriteString(f.name, None);
    Head(w, items[1..], items[1..2], items[2..]);
    var _ :- w.WriteUnsigned(4, f.offset);
    Head(w, items[2..], items[2..3], items[3..]);
    var _ :- w.WriteUnsigned(1, f.datatypeCode);
    Head(w, items[3..], items[3..4], []);
    r := w.WriteUnsigned(4, f.count);
    Last(w);
  }

  method EncodeFields(w: CdrWriter, fields: seq<PointField>) returns (r: Result<()>)
    requires w.Valid() && forall i :: 0 <= i < |fields| ==> |ToUtf8(fields[i].name)| <= w.host.MaxLen()
    modifies w`buf
    ensures w.Valid() && Appended(w, AllFieldItems(fields), old(w.buf), r)
  {
    hide Write, WriteAll, ToUtf8, FieldItems;
    Last(w);
    ghost var before := w.buf;
    for i := 0 to |fields|
      invariant w.Valid() && Appended(w, AllFieldItems(fields[..i]), before, Ok(()))
    {
      var nest := w.EnterNested(0);
      if nest.Err? {
        assert false;
      }
      FieldItemsSnoc(fields, i);
      WriteAllAppend(AllFieldItems(fields[..i]), FieldItems(fields[i]), w.endian, w.limits, before);
      r := EncodePointField(w, fields[i]);
      if r.Err? {
        FieldItemsSplit(fields, i + 1);
        WriteAllAppend(AllFieldItems(fields[..i + 1]), FieldItemsFrom(fields, i + 1), w.endian, w.limits, before);
        return;
      }
    }
    assert fields[..|fields|] == fields;
    return Ok(());
  }

  lemma {:induction false} FieldItemsSnoc(fields: seq<PointField>, i: nat)
    requires i < |fields|
    ensures AllFieldItems(fields[..i + 1]) == AllFieldItems(fields[..i]) + FieldItems(fields[i])
  {
    hide FieldItems;
    assert fields[..i + 1][..i] == fields[..i];
  }

  ghost function FieldItemsFrom(fields: seq<PointField>, i: nat): seq<Item>
    requires i <= |fields|
    decreases |fields| - i
  {
    if i == |fields| then [] else FieldItems(fields[i]) + FieldItemsFrom(fields, i + 1)
  }

  lemma {:induction false} FieldItemsSplit(fields: seq<PointField>, i: nat)
    requires i <= |fields|
    ensures AllFieldItems(fields) == AllFieldItems(fields[..i]) + FieldItemsFrom(fields, i)
    decreases |fields| - i
  {
    hide FieldItems;
    if i == |fields| {
      assert fields[..i] == fields;
    } else {
      FieldItemsSnoc(fields, i);
      FieldItemsSplit(fields, i + 1);
      assert AllFieldItems(fields[..i]) + FieldItems(fields[i]) + FieldItemsFrom(fields, i + 1)
          == AllFieldItems(fields[..i]) + (FieldItems(fields[i]) + FieldItemsFrom(fields, i + 1));
    }
  }

  method EncodeTail(w: CdrWriter, c: Cloud) returns (r: Result<()>)
    requires w.Valid() && |c.data| <= w.host.MaxLen()
    modifies w`buf
    ensures w.Valid() && Appended(w, TailItems(c), old(w.buf), r)
  {
    hide Write, WriteAll, Span;
    Ranges();
    ghost var items := TailItems(c);
    Head(w, items, items[..1], items[1..]);
    var _ :- w.WriteBool(c.isBigendian);
    Head(w, items[1..], items[1..2], items[2..]);
    var _ :- w.WriteUnsigned(4, c.pointStep);
    Head(w, items[2..], items[2..3], items[3..]);
    var _ :- w.WriteUnsigned(4, c.rowStep);
    Head(w, items[3..], items[3..4], items[4..]);
    var _ :- w.WriteByteSequence(c.data, None);
    Head(w, items[4..], items[4..5], []);
    r := w.WriteBool(c.isDense);
    Last(w);
  }

  /** `encode_point_cloud2`. */
  method EncodePointCloud2(w: CdrWriter, c: Cloud) returns (r: Result<()>)
    requires w.Valid() && Allocated(c, w.host)
    modifies w`buf
    ensures w.Valid()
    ensures w.limits.maxDepth >= 2 ==> Appended(w, CloudItems(c), old(w.buf), r)
    ensures w.limits.maxDepth < 2 ==> w.buf == old(w.buf) && r == Err(TooDeep(w))
  {
    hide Write, WriteAll, ToUtf8, HeaderItems, DimItems, AllFieldItems, TailItems;
    ghost var header, dims, fields, tail := HeaderItems(c.header), DimItems(c), AllFieldItems(c.fields), TailItems(c);
    WriteAllAppend(header + dims + fields, tail, w.endian, w.limits, w.buf);
    WriteAllAppend(header + dims, fields, w.endian, w.limits, w.buf);
    WriteAllAppend(header, dims, w.endian, w.limits, w.buf);
    var _ :- EncodeHeader(w, c.header);
    var _ :- EncodeDims(w, c);
    var _ :- EncodeFields(w, c.fields);
    r := EncodeTail(w, c);
  }

  /** What `encode_point_cloud2_le` makes of a cloud. */
  function EncodeLe(c: Cloud): Result<seq<byte>> {
    WriteAll(CloudItems(c), Little, DEFAULTS, Header(Little))
  }

  method EncodePointCloud2Le(c: Cloud, host: Host) returns (r: Result<seq<byte>>)
    requires Allocated(c, host)
    ensures r == EncodeLe(c)
  {
    hide CloudItems, WriteAll;
    var w := NewWriter(Little, DEFAULTS, host);
    if w.Err? {
      assert false;  // the default limits leave room for the header
    }
    var _ :- EncodePointCloud2(w.value, c);
    return Ok(w.value.buf);
  }
}
