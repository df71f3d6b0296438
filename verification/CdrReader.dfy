/** The CDR1 reader: a cursor over a borrowed view, advanced by each successful read and
    put back by each failed one. */
module CdrReader {
  import opened ByteOrder
  import opened CdrLimits
  import opened Outcomes
  import opened Utf8
  import opened CdrSyntax

  /** What a reader sees of `bytes`: faults first, then the byte order of the encapsulation. */
  function OpenStream(bytes: seq<byte>, limits: Limits, host: Host): (r: Result<Stream>)
    ensures r.Ok? <==>
            && limits.Accepted() && HEADER_LENGTH <= |bytes| <= limits.maxStream
            && bytes[0] == 0 && bytes[1] <= 1
    ensures r.Ok? ==> r.value == Stream(bytes, if bytes[1] == 1 then Little else Big, limits, host)
  {
    match Validate(limits)
    case Some(fault) => Err(fault)
    case None =>
      if |bytes| > limits.maxStream then Err(Fault(BoundsExceeded, 0, |bytes|, limits.maxStream))
      else if |bytes| < HEADER_LENGTH then Err(Fault(InvalidEncapsulation, 0, HEADER_LENGTH, |bytes|))
      else
        var representation := 256 * (bytes[0] as int) + bytes[1];
        if representation == 1 then Ok(Stream(bytes, Little, limits, host))
        else if representation == 0 then Ok(Stream(bytes, Big, limits, host))
        else Err(Fault(UnsupportedRepresentation, 0, 0, |bytes|))
  }

  /** A read reported `r` and moved the cursor from `before` to `after` exactly as parsing
      prescribes; a failed read leaves the cursor where it was. */
  predicate Yields<T(==)>(r: Result<T>, before: nat, after: nat, p: Parsed<T>) {
    match p
    case Got(v, next) => r == Ok(v) && after == next
    case Bad(fault) => r == Err(fault) && after == before
  }

  class CdrReader {
    const bytes: seq<byte>
    const endian: Endian
    const limits: Limits
    const host: Host
    var offset: nat

    function View(): Stream {
      Stream(bytes, endian, limits, host)
    }

    /** `4 <= offset <= len` always, so no index below leaves the view. */
    predicate Valid()
      reads this
    {
      View().Open() && Within(View(), offset)
    }

    constructor (s: Stream)
      requires s.Open()
      ensures Valid() && View() == s && offset == BODY_ORIGIN
    {
      bytes, endian, limits, host, offset := s.bytes, s.endian, s.limits, s.host, BODY_ORIGIN;
    }

    method Preflight(start: nat, align: Width, size: nat) returns (r: Result<nat>)
      requires Valid() && Within(View(), start) && size <= host.Max()
      modifies this`offset
      ensures r.Ok? ==> offset == old(offset) && r.value == PaddingFor(start, align)
      ensures r.Err? ==> offset == start
      ensures if PaddingFor(start, align) + size > host.Max() then r == Err(Fault(LengthOverflow, start, 0, |bytes| - start))
              else
                match Room(View(), start, align, size)
                case Got(at, _) => r == Ok(at - start)
                case Bad(fault) => r == Err(fault)
    {
      var pad := PaddingFor(start, align);
      var rem := |bytes| - start;
      var needed := CheckedAdd(host, pad, size);
      if needed.None? {
        offset := start;
        return Err(Fault(LengthOverflow, start, 0, rem));
      }
      if pad > 0 && rem < pad {
        offset := start;
        return Err(Fault(AlignmentOverflow, start, pad, rem));
      }
      if rem < needed.value {
        offset := start;
        return Err(Fault(Truncated, start, needed.value, rem));
      }
      return Ok(pad);
    }

    method ReadU32At(pos: nat) returns (v: nat)
      requires pos + 4 <= |bytes|
      ensures v == Decode(endian, bytes[pos..pos + 4]) && v <= U32_MAX
    {
      hide Decode;
      v := Decode(endian, bytes[pos..pos + 4]);
      SpanValues();
      EncodeDecode(endian, bytes[pos..pos + 4]);
    }

    /** `read_u8`, `read_u16`, `read_u32`, `read_u64` and, on bit patterns, `read_f32`,
        `read_f64`, `read_char8`, `read_char16`. */
    method ReadUnsigned(w: Width) returns (r: Result<nat>)
      requires Valid()
      modifies this`offset
      ensures Valid() && Yields(r, old(offset), offset, ParseUnsigned(View(), old(offset), w))
      ensures r.Ok? ==> r.value < Span(w)
    {
      hide Decode;
      var pad :- Preflight(offset, w, w);
      assert offset + pad + w <= host.Max();
      offset := offset + pad;
      var v := Decode(endian, bytes[offset..offset + w]);
      EncodeDecode(endian, bytes[offset..offset + w]);
      offset := offset + w;
      return Ok(v);
    }

    /** `read_i8` to `read_i64`. */
    method ReadSigned(w: Width) returns (r: Result<int>)
      requires Valid()
      modifies this`offset
      ensures Valid() && Yields(r, old(offset), offset, ParseSigned(View(), old(offset), w))
      ensures r.Ok? ==> -(Span(w) / 2) <= r.value < Span(w) / 2
    {
      var v :- ReadUnsigned(w);
      SignedBijection(v, 0, w);
      return Ok(ToSigned(v, w));
    }

    method ReadBool() returns (r: Result<bool>)
      requires Valid()
      modifies this`offset
      ensures Valid() && Yields(r, old(offset), offset, ParseBool(View(), old(offset)))
    {
      var start := offset;
      var rem := |bytes| - start;
      var b :- ReadUnsigned(1);
      if b == 0 {
        return Ok(false);
      } else if b == 1 {
        return Ok(true);
      }
      offset := start;
      return Err(Fault(InvalidBoolean, start, 1, rem));
    }

    /** A borrowed span of `n` octets, where the cursor stood. */
    method ReadBytes(n: nat) returns (r: Result<seq<byte>>)
      requires Valid() && n <= host.Max()
      modifies this`offset
      ensures Valid()
      ensures r.Ok? <==> old(offset) + n <= |bytes|
      ensures r.Ok? ==> offset == old(offset) + n && r.value == bytes[old(offset)..offset]
      ensures r.Err? ==> offset == old(offset) && r.fault == Fault(Truncated, offset, n, |bytes| - offset)
    {
      var pad :- Preflight(offset, 1, n);
      var start := offset + pad;
      assert start + n <= host.Max();
      offset := start + n;
      return Ok(bytes[start..offset]);
    }

    method ReadString(bound: Option<nat>) returns (r: Result<Str>)
      requires Valid()
      modifies this`offset
      ensures Valid() && Yields(r, old(offset), offset, ParseString(View(), old(offset), bound))
    {
      hide Decode, FromUtf8, PaddingFor;
      var start := offset;
      var rem := |bytes| - start;
      var pad :- Preflight(start, 4, 4);
      assert start + pad <= host.Max();
      var lenPos := start + pad;
      var len := ReadU32At(lenPos);
      if len == 0 {
        return Err(Fault(MissingStringTerminator, start, 1, rem));
      }
      var payload := len - 1;
      if Over(payload, bound) {
        return Err(Fault(BoundsExceeded, start, payload, bound.value));
      }
      if len > host.Max() {
        assert false;  // usize::try_from cannot fail on either host
      }
      if len > limits.maxStream {
        return Err(Fault(LengthOverflow, start, len, limits.maxStream));
      }
      var headerAndPad := CheckedAdd(host, pad, 4);
      if headerAndPad.None? {
        assert false;
      }
      var total := CheckedAdd(host, headerAndPad.value, len);
      if total.None? {
        assert false;
      }
      if rem < total.value {
        return Err(Fault(Truncated, start, total.value, rem));
      }
      if payload * 2 > U64_MAX || payload * 2 > host.Max() {
        assert false;  // the doubled charge fits a 32-bit usize once the span is bounded
      }
      if payload * 2 > limits.maxTemp {
        return Err(Fault(BoundsExceeded, start, payload * 2, limits.maxTemp));
      }
      var dataStart := lenPos + 4;
      var dataEnd := dataStart + len;
      assert dataEnd <= host.Max();
      if bytes[dataEnd - 1] != 0 {
        return Err(Fault(MissingStringTerminator, start, len, rem));
      }
      match FromUtf8(bytes[dataStart..dataEnd - 1]) {
        case Some(text) =>
          offset := dataEnd;
          return Ok(text);
        case None =>
          return Err(Fault(InvalidUtf8, start, len, rem));
      }
    }

    method ReadWString(bound: Option<nat>) returns (r: Result<Str>)
      requires Valid()
      modifies this`offset
      ensures Valid() && Yields(r, old(offset), offset, ParseWString(View(), old(offset), bound))
    {
      hide Decode, PaddingFor, ReadSlots;
      var start := offset;
      var rem := |bytes| - start;
      var pad :- Preflight(start, 4, 4);
      var countPos := start + pad;
      var count := ReadU32At(countPos);
      if Over(count, bound) {
        return Err(Fault(BoundsExceeded, start, count, bound.value));
      }
      if count > host.Max() || count * 4 > U64_MAX {
        assert false;
      }
      var payload := count * 4;
      if payload > host.Max() {
        return Err(Fault(LengthOverflow, start, 0, rem));
      }
      if payload > limits.maxStream {
        return Err(Fault(LengthOverflow, start, payload, limits.maxStream));
      }
      var headerAndPad := CheckedAdd(host, pad, 4);
      if headerAndPad.None? {
        assert false;
      }
      var total := CheckedAdd(host, headerAndPad.value, payload);
      if total.None? {
        assert false;
      }
      if rem < total.value {
        return Err(Fault(Truncated, start, total.value, rem));
      }
      if payload > limits.maxTemp {
        return Err(Fault(BoundsExceeded, start, payload, limits.maxTemp));
      }
      var dataStart := countPos + 4;
      var out := DecodeSlots(dataStart, count);
      if out.None? {
        return Err(Fault(InvalidWstringScalar, start, 4, rem));
      }
      offset := dataStart + payload;
      assert offset <= host.Max();
      return Ok(out.value);
    }

    /** The slot loop of `read_wstring`. */
    method DecodeSlots(dataStart: nat, count: nat) returns (out: Option<Str>)
      requires dataStart + 4 * count <= |bytes|
      ensures out == ReadSlots(endian, bytes, dataStart, count)
    {
      hide Decode;
      var text: Str := [];
      for k := 0 to count
        invariant ReadSlots(endian, bytes, dataStart, k) == Some(text)
      {
        var slot := ReadU32At(dataStart + k * 4);
        if !IsScalar(slot) {
          NoSlots(endian, bytes, dataStart, k + 1, count);
          return None;
        }
        text := text + [slot];
      }
      return Some(text);
    }

    method ReadSequenceLength(bound: Option<nat>) returns (r: Result<nat>)
      requires Valid()
      modifies this`offset
      ensures Valid() && Yields(r, old(offset), offset, ParseSeqLen(View(), old(offset), bound))
    {
      hide Decode, PaddingFor;
      var start := offset;
      var pad :- Preflight(start, 4, 4);
      var countPos := start + pad;
      var count := ReadU32At(countPos);
      if Over(count, bound) {
        return Err(Fault(BoundsExceeded, start, count, bound.value));
      }
      if limits.maxStream > U32_MAX {
        assert false;  // u32::try_from(max_stream) cannot fail
      }
      if count > limits.maxStream {
        return Err(Fault(BoundsExceeded, start, count, limits.maxStream));
      }
      offset := countPos + 4;
      return Ok(count);
    }

    /** A borrowed view: the octets returned are the input's own, ending at the cursor. */
    method ReadByteSequence(bound: Option<nat>) returns (r: Result<seq<byte>>)
      requires Valid()
      modifies this`offset
      ensures Valid() && Yields(r, old(offset), offset, ParseByteSeq(View(), old(offset), bound))
    {
      hide Decode, PaddingFor;
      var start := offset;
      var rem := |bytes| - start;
      var pad :- Preflight(start, 4, 4);
      var countPos := start + pad;
      var count := ReadU32At(countPos);
      if Over(count, bound) {
        return Err(Fault(BoundsExceeded, start, count, bound.value));
      }
      if count > limits.maxStream {
        return Err(Fault(BoundsExceeded, start, count, limits.maxStream));
      }
      var headerAndPad := CheckedAdd(host, pad, 4);
      if headerAndPad.None? {
        assert false;
      }
      var total := CheckedAdd(host, headerAndPad.value, count);
      if total.None? {
        assert false;
      }
      if rem < total.value {
        return Err(Fault(Truncated, start, total.value, rem));
      }
      var dataStart := countPos + 4;
      var dataEnd := dataStart + count;
      assert dataEnd <= host.Max();
      offset := dataEnd;
      return Ok(bytes[dataStart..dataEnd]);
    }

    /** `ensure_complete_with_zero_tail`: an exact end always succeeds for a declaration
        within the stream ceiling; otherwise the tail must have the declared length and be
        all zero, and is then consumed. */
    method EnsureCompleteWithZeroTail(expected: nat) returns (r: Result<()>)
      requires Valid()
      modifies this`offset
      ensures Valid()
      ensures r.Ok? <==>
              && expected <= limits.maxStream
              && (old(offset) == |bytes|
                  || (|bytes| - old(offset) == expected && forall i :: old(offset) <= i < |bytes| ==> bytes[i] == 0))
      ensures offset == if r.Ok? then |bytes| else old(offset)
      ensures r.Err? && expected > limits.maxStream ==> r.fault == Fault(BoundsExceeded, offset, expected, limits.maxStream)
      ensures r.Err? && expected <= limits.maxStream ==> r.fault == Fault(TrailingData, offset, 0, |bytes| - offset)
    {
      var cursor := offset;
      var rem := |bytes| - cursor;
      if expected > limits.maxStream {
        return Err(Fault(BoundsExceeded, cursor, expected, limits.maxStream));
      }
      if rem == 0 {
        return Ok(());
      }
      if rem != expected {
        return Err(Fault(TrailingData, cursor, 0, rem));
      }
      if exists i :: cursor <= i < cursor + rem && bytes[i] != 0 {
        return Err(Fault(TrailingData, cursor, 0, rem));
      }
      offset := cursor + rem;
      return Ok(());
    }

    /** Depth of a nested aggregate under a parent of depth `parent`. */
    method EnterNested(parent: nat) returns (r: Result<nat>)
      requires Valid() && parent <= limits.maxDepth
      ensures r == NestedAt(parent, limits.maxDepth, offset)
    {
      var next := parent + 1;
      assert next <= host.Max();
      if next > limits.maxDepth {
        return Err(Fault(BoundsExceeded, offset, next, limits.maxDepth));
      }
      return Ok(next);
    }
  }

  function NestedAt(parent: nat, maxDepth: nat, at: nat): Result<nat> {
    if parent + 1 > maxDepth then Err(Fault(BoundsExceeded, at, parent + 1, maxDepth)) else Ok(parent + 1)
  }

  lemma {:induction false} NoSlots(e: Endian, b: seq<byte>, at: nat, k: nat, n: nat)
    requires k <= n && at + 4 * n <= |b| && ReadSlots(e, b, at, k).None?
    ensures ReadSlots(e, b, at, n).None?
    decreases n
  {
    if k < n {
      NoSlots(e, b, at, k, n - 1);
    }
  }

  method Open(bytes: seq<byte>, limits: Limits, host: Host) returns (r: Result<CdrReader>)
    ensures r.Ok? ==> fresh(r.value) && r.value.Valid() && r.value.offset == BODY_ORIGIN
    ensures match OpenStream(bytes, limits, host)
            case Ok(s) => r.Ok? && r.value.View() == s
            case Err(fault) => r.Err? && r.fault == fault
  {
    var s := OpenStream(bytes, limits, host);
    match s {
      case Ok(view) =>
        var reader := new CdrReader(view);
        return Ok(reader);
      case Err(fault) =>
        return Err(fault);
    }
  }
}
