/** PointCloud2: decoding inverts encoding, and re-encoding is canonicalisation. */
module PointCloudLaws {
  import opened ByteOrder
  import opened CdrLimits
  import opened Outcomes
  import opened Utf8
  import opened CdrSyntax
  import opened CdrRoundTrip
  import opened CdrReader
  import opened PointCloud2

  /** `items` is what the stream holds from `at` to `next`. */
  ghost predicate ReadsTo(items: seq<Item>, s: Stream, at: nat, next: nat)
    requires Within(s, at)
  {
    ParseAll(Kinds(items), s, at) == Got(Fields(items), next)
  }

  lemma {:induction false} ReadsCons(item: Item, rest: seq<Item>, s: Stream, at: nat, next: nat)
    requires Within(s, at)
    ensures ReadsTo([item] + rest, s, at, next) <==>
            var p := Parse(item.0, s, at);
            p.Got? && p.value == item.1 && ReadsTo(rest, s, p.next, next)
  {
    hide Parse;
    var p := Parse(item.0, s, at);
    if p.Got? {
      var q := ParseAll(Kinds(rest), s, p.next);
      if q.Got? {
        assert ([p.value] + q.value)[0] == p.value && ([p.value] + q.value)[1..] == q.value;
        assert ([item.1] + Fields(rest))[0] == item.1 && ([item.1] + Fields(rest))[1..] == Fields(rest);
      }
    }
  }

  lemma {:induction false} KindsAppend(a: seq<Item>, b: seq<Item>)
    ensures Kinds(a + b) == Kinds(a) + Kinds(b) && Fields(a + b) == Fields(a) + Fields(b)
    decreases |a|
  {
    if a == [] {
      assert a + b == b;
    } else {
      assert (a + b)[1..] == a[1..] + b;
      KindsAppend(a[1..], b);
    }
  }

  lemma {:induction false} ReadsAppend(a: seq<Item>, b: seq<Item>, s: Stream, at: nat, next: nat)
    requires Within(s, at)
    ensures ReadsTo(a + b, s, at, next) <==>
            var p := ParseAll(Kinds(a), s, at);
            p.Got? && p.value == Fields(a) && ReadsTo(b, s, p.next, next)
  {
    hide Parse, ParseAll, Kinds, Fields;
    KindsAppend(a, b);
    ParseAllAppend(Kinds(a), Kinds(b), s, at);
    var p := ParseAll(Kinds(a), s, at);
    if p.Got? {
      var q := ParseAll(Kinds(b), s, p.next);
      if q.Got? {
        assert (p.value + q.value)[..|a|] == p.value && (p.value + q.value)[|a|..] == q.value;
        assert (Fields(a) + Fields(b))[..|a|] == Fields(a) && (Fields(a) + Fields(b))[|a|..] == Fields(b);
      }
    }
  }

  lemma {:induction false} ReadsNil(s: Stream, at: nat, next: nat)
    requires Within(s, at)
    ensures ReadsTo([], s, at, next) <==> next == at
  {
  }

  /** The next item of a list read from `at`: what its kind parses to. */
  lemma {:induction false} Next(items: seq<Item>, s: Stream, at: nat, next: nat)
    requires Within(s, at) && items != []
    ensures ReadsTo(items, s, at, next) <==>
            var p := Parse(items[0].0, s, at);
            p.Got? && p.value == items[0].1 && ReadsTo(items[1..], s, p.next, next)
  {
    hide Parse;
    assert items == [items[0]] + items[1..];
    ReadsCons(items[0], items[1..], s, at, next);
  }

  lemma {:induction false} HeaderReads(s: Stream, at: nat, h: CloudHeader, next: nat)
    requires Within(s, at)
    ensures ParseHeader(s, at) == Got(h, next) <==> ReadsTo(HeaderItems(h), s, at, next)
  {
    hide ParseUnsigned, ParseSigned, ParseString, ReadsTo, Span;
    var items := HeaderItems(h);
    Next(items, s, at, next);
    var p := ParseSigned(s, at, 4);
    if p.Got? {
      Next(items[1..], s, p.next, next);
      var q := ParseUnsigned(s, p.next, 4);
      if q.Got? {
        Next(items[2..], s, q.next, next);
        var r := ParseString(s, q.next, None);
        if r.Got? {
          assert items[2..][1..] == [];
          ReadsNil(s, r.next, next);
        }
      }
    }
  }

  lemma {:induction false} FieldReads(s: Stream, at: nat, f: PointField, next: nat)
    requires Within(s, at)
    ensures ParsePointField(s, at) == Got(f, next) <==> ReadsTo(FieldItems(f), s, at, next)
  {
    hide ParseUnsigned, ParseString, ReadsTo, Span;
    var items := FieldItems(f);
    Next(items, s, at, next);
    var p := ParseString(s, at, None);
    if p.Got? {
      Next(items[1..], s, p.next, next);
      var q := ParseUnsigned(s, p.next, 4);
      if q.Got? {
        Next(items[2..], s, q.next, next);
        var r := ParseUnsigned(s, q.next, 1);
        if r.Got? {
          Next(items[3..], s, r.next, next);
          var t := ParseUnsigned(s, r.next, 4);
          if t.Got? {
            assert items[3..][1..] == [];
            ReadsNil(s, t.next, next);
          }
        }
      }
    }
  }

  lemma {:induction false} FieldsRead(s: Stream, at: nat, fs: seq<PointField>, next: nat)
    requires Within(s, at)
    ensures ParsePointFields(s, at, |fs|) == Got(fs, next) <==> ReadsTo(AllFieldItems(fs), s, at, next)
    decreases |fs|, 0
  {
    hide ParsePointField, FieldItems, ReadsTo;
    if fs == [] {
      ReadsNil(s, at, next);
    } else {
      var init, f := fs[..|fs| - 1], fs[|fs| - 1];
      assert fs == init + [f];
      ReadsAppend(AllFieldItems(init), FieldItems(f), s, at, next);
      FieldsReadInit(s, at, init);
      var p := ParsePointFields(s, at, |init|);
      if p.Got? {
        FieldReads(s, p.next, f, next);
        var q := ParsePointField(s, p.next);
        if q.Got? {
          assert p.value + [q.value] == fs <==> p.value == init && q.value == f by {
            assert (p.value + [q.value])[..|init|] == p.value && (p.value + [q.value])[|init|] == q.value;
          }
        }
      }
    }
  }

  /** As `FieldsRead`, with the end left open. */
  lemma {:induction false} FieldsReadInit(s: Stream, at: nat, fs: seq<PointField>)
    requires Within(s, at)
    ensures var p, q := ParsePointFields(s, at, |fs|), ParseAll(Kinds(AllFieldItems(fs)), s, at);
            p.Got? && p.value == fs <==> q.Got? && q.value == Fields(AllFieldItems(fs))
    ensures var p, q := ParsePointFields(s, at, |fs|), ParseAll(Kinds(AllFieldItems(fs)), s, at);
            p.Got? && p.value == fs ==> p.next == q.next
    decreases |fs|, 1
  {
    hide ParsePointFields, AllFieldItems, ParseAll, Kinds, Fields;
    var p, q := ParsePointFields(s, at, |fs|), ParseAll(Kinds(AllFieldItems(fs)), s, at);
    if p.Got? {
      FieldsRead(s, at, fs, p.next);
    }
    if q.Got? {
      FieldsRead(s, at, fs, q.next);
    }
  }

  lemma {:induction false} TailReads(s: Stream, at: nat, base: Cloud, c: Cloud, next: nat)
    requires Within(s, at)
    requires c.header == base.header && c.height == base.height && c.width == base.width && c.fields == base.fields
    ensures var p := ParseTail(s, at, base);
            p.Got? && p.value.cloud == c && p.next == next <==> ReadsTo(TailItems(c), s, at, next)
  {
    hide ParseUnsigned, ParseBool, ParseByteSeq, ReadsTo, Span;
    var items := TailItems(c);
    Next(items, s, at, next);
    var p1 := ParseBool(s, at);
    if p1.Got? {
      Next(items[1..], s, p1.next, next);
      var p2 := ParseUnsigned(s, p1.next, 4);
      if p2.Got? {
        Next(items[2..], s, p2.next, next);
        var p3 := ParseUnsigned(s, p2.next, 4);
        if p3.Got? {
          Next(items[3..], s, p3.next, next);
          var p4 := ParseByteSeq(s, p3.next, None);
          if p4.Got? {
            Next(items[4..], s, p4.next, next);
            var p5 := ParseBool(s, p4.next);
            if p5.Got? {
              assert items[4..][1..] == [];
              ReadsNil(s, p5.next, next);
            }
          }
        }
      }
    }
  }

  /** What `ParseCloud` reads between the header and the tail. */
  function ParseDims(s: Stream, at: nat): (r: Parsed<(U32, U32, nat)>)
    requires Within(s, at)
    ensures r.Got? ==> at < r.next <= |s.bytes|
  {
    var (height, b) :- ParseU32(s, at);
    var (width, c) :- ParseU32(s, b);
    var (count, d) :- ParseSeqLen(s, c, None);
    Got((height, width, count), d)
  }

  lemma {:induction false} DimsRead(s: Stream, at: nat, c: Cloud, next: nat)
    requires Within(s, at)
    ensures ParseDims(s, at) == Got((c.height, c.width, |c.fields| % (U32_MAX + 1)), next)
            <==> ReadsTo(DimItems(c), s, at, next)
  {
    hide ParseUnsigned, ParseSeqLen, ReadsTo, Span;
    var items := DimItems(c);
    Next(items, s, at, next);
    var p1 := ParseUnsigned(s, at, 4);
    if p1.Got? {
      Next(items[1..], s, p1.next, next);
      var p2 := ParseUnsigned(s, p1.next, 4);
      if p2.Got? {
        Next(items[2..], s, p2.next, next);
        var p3 := ParseSeqLen(s, p2.next, None);
        if p3.Got? {
          assert items[2..][1..] == [];
          ReadsNil(s, p3.next, next);
        }
      }
    }
  }

  /** The decoder accepts a cloud exactly where the stream holds the cloud's item list. */
  lemma {:induction false} CloudReads(s: Stream, at: nat, c: Cloud, next: nat)
    requires s.Open() && Within(s, at) && s.limits.maxDepth >= 2 && |c.fields| <= U32_MAX
    ensures var p := ParseCloud(s, at);
            p.Got? && p.value.cloud == c && p.next == next <==> ReadsTo(CloudItems(c), s, at, next)
  {
    hide ParseHeader, ParseUnsigned, ParseSeqLen, ParsePointFields, ParseTail, ReadsTo, Kinds, Fields, ParseAll,
      HeaderItems, DimItems, AllFieldItems, TailItems;
    var h, d, f, t := HeaderItems(c.header), DimItems(c), AllFieldItems(c.fields), TailItems(c);
    assert h + d + f + t == h + (d + (f + t));
    ReadsAppend(h, d + (f + t), s, at, next);
    var p1 := ParseHeader(s, at);
    EndOfHeader(s, at, c.header);
    if p1.Got? && p1.value == c.header {
      ReadsAppend(d, f + t, s, p1.next, next);
      EndOfDims(s, p1.next, c);
      var p2 := ParseDims(s, p1.next);
      if p2.Got? && p2.value == (c.height, c.width, |c.fields|) {
        ReadsAppend(f, t, s, p2.next, next);
        FieldsReadInit(s, p2.next, c.fields);
        var p3 := ParsePointFields(s, p2.next, |c.fields|);
        if p3.Got? && p3.value == c.fields {
          TailReads(s, p3.next, Cloud(c.header, c.height, c.width, c.fields, false, 0, 0, [], false), c, next);
        }
      }
    }
  }

  lemma {:induction false} EndOfHeader(s: Stream, at: nat, h: CloudHeader)
    requires Within(s, at)
    ensures var p, q := ParseHeader(s, at), ParseAll(Kinds(HeaderItems(h)), s, at);
            && (p.Got? && p.value == h <==> q.Got? && q.value == Fields(HeaderItems(h)))
            && (p.Got? && p.value == h ==> p.next == q.next)
  {
    hide ParseHeader, HeaderItems, ParseAll, Kinds, Fields;
    var p, q := ParseHeader(s, at), ParseAll(Kinds(HeaderItems(h)), s, at);
    if p.Got? {
      HeaderReads(s, at, h, p.next);
    }
    if q.Got? {
      HeaderReads(s, at, h, q.next);
    }
  }

  lemma {:induction false} EndOfDims(s: Stream, at: nat, c: Cloud)
    requires Within(s, at) && |c.fields| <= U32_MAX
    ensures var p, q := ParseDims(s, at), ParseAll(Kinds(DimItems(c)), s, at);
            && (p.Got? && p.value == (c.height, c.width, |c.fields|) <==> q.Got? && q.value == Fields(DimItems(c)))
            && (p.Got? && p.value == (c.height, c.width, |c.fields|) ==> p.next == q.next)
  {
    hide ParseDims, DimItems, ParseAll, Kinds, Fields;
    var p, q := ParseDims(s, at), ParseAll(Kinds(DimItems(c)), s, at);
    if p.Got? {
      DimsRead(s, at, c, p.next);
    }
    if q.Got? {
      DimsRead(s, at, c, q.next);
    }
  }

  // ---------------------------------------------------------------- the three laws

  lemma {:induction false} FieldItemsCount(fs: seq<PointField>)
    ensures |AllFieldItems(fs)| == 4 * |fs|
  {
    if fs != [] {
      FieldItemsCount(fs[..|fs| - 1]);
    }
  }

  /** The truncating cast of the field count is harmless: a cloud whose count it would
      change is never encoded, because its fields alone exceed the writer's capacity. */
  lemma {:induction false} CastIsHarmless(c: Cloud)
    ensures EncodeLe(c).Ok? ==> |c.fields| <= U32_MAX
  {
    hide WriteAll, EmitAll, HeaderItems, DimItems, AllFieldItems, TailItems;
    WriteAllExact(CloudItems(c), Little, DEFAULTS, Header(Little));
    EmitAllGrows(CloudItems(c), Little, BODY_ORIGIN);
    FieldItemsCount(c.fields);
  }

  /** Decoding accepts `b` as cloud `c` iff all of `b` is the item list of `c`. */
  lemma {:induction false} DecodesTo(b: seq<byte>, e: Endian, host: Host, c: Cloud)
    requires HEADER_LENGTH <= |b| <= MAX_STREAM && b[..2] == [0, if e.Little? then 1 else 0]
    requires |c.fields| <= U32_MAX
    ensures DecodeLe(b, host).Ok? && DecodeLe(b, host).value.cloud == c
            <==> ReadsTo(CloudItems(c), Stream(b, e, DEFAULTS, host), BODY_ORIGIN, |b|)
  {
    hide ParseCloud, CloudItems, ReadsTo;
    CloudReads(Stream(b, e, DEFAULTS, host), BODY_ORIGIN, c, |b|);
  }

  /** Decoding inverts encoding: what the encoder makes of a cloud decodes to that cloud
      iff the frame id and every field name fit the reader's doubled string charge. */
  lemma {:induction false} DecodeOfEncode(c: Cloud, host: Host)
    requires EncodeLe(c).Ok?
    ensures var d := DecodeLe(EncodeLe(c).value, host);
            d.Ok? && d.value.cloud == c <==> StringsFit(CloudItems(c), DEFAULTS)
  {
    hide WriteAll, EmitAll, ParseAll, StringsFit, CloudItems, Kinds, Fields;
    var out := EncodeLe(c).value;
    CastIsHarmless(c);
    WriteAllExact(CloudItems(c), Little, DEFAULTS, Header(Little));
    assert out[..2] == Header(Little)[..2];
    RoundTrip(CloudItems(c), Little, DEFAULTS, host);
    DecodesTo(out, Little, host, c);
  }

  /** A decoded cloud's field count came through a 32-bit sequence length. */
  lemma {:induction false} DecodedCount(s: Stream, at: nat)
    requires s.Open() && Within(s, at) && ParseCloud(s, at).Got?
    ensures |ParseCloud(s, at).value.cloud.fields| <= U32_MAX
  {
    hide ParseHeader, ParseUnsigned, ParsePointFields, ParseTail;
  }

  /** `out` is `b` with option octets and padding cleared. */
  ghost predicate CanonicalFormOf(out: seq<byte>, b: seq<byte>, items: seq<Item>) {
    && |out| == |b| >= HEADER_LENGTH && out[..HEADER_LENGTH] == Header(Little)
    && forall i :: 0 <= i < |b| && i != 2 && i != 3 && !IsPadding(items, Little, BODY_ORIGIN, i) ==> out[i] == b[i]
  }

  /** Canonicalisation: the encoder accepts every cloud decoded from a little-endian
      buffer, and its output differs from that buffer in option and padding octets only.
      Decoding the output gives the cloud again. */
  lemma {:induction false} EncodeOfDecode(b: seq<byte>, host: Host)
    requires DecodeLe(b, host).Ok? && b[1] == 1
    ensures var c := DecodeLe(b, host).value.cloud;
            && EncodeLe(c).Ok? && CanonicalFormOf(EncodeLe(c).value, b, CloudItems(c))
            && DecodeLe(EncodeLe(c).value, host).Ok? && DecodeLe(EncodeLe(c).value, host).value.cloud == c
  {
    hide WriteAll, EmitAll, ParseAll, StringsFit, CloudItems, ParseCloud, Kinds, Fields, ReadableAll, HoldsAll;
    var c := DecodeLe(b, host).value.cloud;
    var items := CloudItems(c);
    var s := Stream(b, Little, DEFAULTS, host);
    assert b[..2] == [0, 1];
    DecodedCount(s, BODY_ORIGIN);
    DecodesTo(b, Little, host, c);
    WriteBack(items, s, |b|);
    WriteAllExact(items, Little, DEFAULTS, Header(Little));
    Canonical(items, s, BODY_ORIGIN);
    StringsFitOfReadable(items, s);
    DecodeOfEncode(c, host);
  }

}
