/** The canonical CDR1 writer: an owned buffer that grows by whole fields or not at all. */
module CdrWriter {
  import opened ByteOrder
  import opened CdrLimits
  import opened Utf8
  import opened CdrSyntax
  import opened CdrRoundTrip

  /** `max_payload_for_writer`: -1 when even an empty string does not fit. */
  function MaxPayload(fieldStart: nat, remCap: nat): int
    requires BODY_ORIGIN <= fieldStart
  {
    var pad := PaddingFor(fieldStart, 4);
    if remCap < pad then -1 else if remCap - pad < 5 then -1 else remCap - pad - 5
  }

  /** `max_scalars_for_writer`: -1 when even an empty wide string does not fit. */
  function MaxScalars(fieldStart: nat, remCap: nat): int
    requires BODY_ORIGIN <= fieldStart
  {
    var pad := PaddingFor(fieldStart, 4);
    if remCap < pad then -1 else if remCap - pad < 4 then -1 else (remCap - pad - 4) / 4
  }

  /** The writer's two capacity prechecks agree exactly with the reservation that follows. */
  lemma {:induction false} PrechecksExact(at: nat, cap: nat, n: nat)
    requires BODY_ORIGIN <= at <= cap
    ensures n <= MaxPayload(at, cap - at) <==> at + PaddingFor(at, 4) + 4 + n + 1 <= cap
    ensures n <= MaxScalars(at, cap - at) <==> at + PaddingFor(at, 4) + 4 + 4 * n <= cap
  {
    var room := cap - at - PaddingFor(at, 4) - 4;
    if room >= 0 {
      assert room == 4 * (room / 4) + room % 4;
    }
  }

  class CdrWriter {
    var buf: seq<byte>
    const capacity: nat
    const limits: Limits
    const endian: Endian
    const host: Host

    /** `buf.len() <= capacity` always; the header is never overwritten. */
    predicate Valid()
      reads this
    {
      limits.Accepted() && capacity == WriterCapacity(limits) && BODY_ORIGIN <= |buf| <= capacity
    }

    constructor (e: Endian, l: Limits, h: Host)
      requires l.Accepted() && HEADER_LENGTH <= WriterCapacity(l)
      ensures Valid() && buf == Header(e) && endian == e && limits == l && host == h
    {
      buf, capacity, limits, endian, host := Header(e), WriterCapacity(l), l, e, h;
    }

    /** The buffer after offering field `f` of kind `k` to a writer holding `before`:
        extended by the field's canonical octets, or untouched. */
    predicate Wrote(k: Kind, f: Field, before: seq<byte>, r: Result<()>)
      requires WellTyped(k, f) && BODY_ORIGIN <= |before| <= WriterCapacity(limits)
      reads this
    {
      match Write(k, f, endian, limits, before)
      case Ok(after) => r == Ok(()) && buf == after
      case Err(fault) => r == Err(fault) && buf == before
    }

    method AlignAndReserve(align: Width, size: nat) returns (r: Result<()>)
      requires Valid() && size <= host.MaxLen()
      modifies this`buf
      ensures Valid()
      ensures match Reserve(old(|buf|), align, size, capacity)
              case Some(fault) => r == Err(fault) && buf == old(buf)
              case None => r == Ok(()) && buf == old(buf) + Zeros(PaddingFor(old(|buf|), align)) && |buf| + size <= capacity
    {
      var fieldStart := |buf|;
      var pad := PaddingFor(fieldStart, align);
      var remCap := capacity - |buf|;
      var needed := CheckedAdd(host, pad, size);
      if needed.None? {
        assert false;  // the length_overflow faults here cannot occur
      }
      var end := CheckedAdd(host, fieldStart, needed.value);
      if end.None? {
        assert false;
      }
      if end.value > capacity {
        return Err(Fault(BoundsExceeded, fieldStart, needed.value, remCap));
      }
      buf := buf + Zeros(pad);
      return Ok(());
    }

    method WriteU32Raw(v: nat)
      requires |buf| >= 0
      modifies this`buf
      ensures buf == old(buf) + Encode(endian, v, 4)
    {
      buf := buf + Encode(endian, v, 4);
    }

    /** `write_u8` to `write_u64`, `write_char8`, `write_char16` and, on bit patterns,
        `write_f32`, `write_f64`. */
    method WriteUnsigned(w: Width, v: nat) returns (r: Result<()>)
      requires Valid() && v < Span(w)
      modifies this`buf
      ensures Valid() && Wrote(Unsigned(w), Number(v), old(buf), r)
    {
      hide Encode, PaddingFor;
      ghost var before := buf;
      var _ :- AlignAndReserve(w, w);
      ghost var padded := buf;
      buf := buf + Encode(endian, v, w);
      assert buf == before + (Zeros(PaddingFor(|before|, w)) + Encode(endian, v, w));
      return Ok(());
    }

    /** `write_i8` to `write_i64`. */
    method WriteSigned(w: Width, x: int) returns (r: Result<()>)
      requires Valid() && -(Span(w) / 2) <= x < Span(w) / 2
      modifies this`buf
      ensures Valid() && Wrote(Signed(w), Number(x), old(buf), r)
    {
      hide Encode, PaddingFor;
      SignedBijection(0, x, w);
      r := WriteUnsigned(w, FromSigned(x, w));
    }

    method WriteBool(b: bool) returns (r: Result<()>)
      requires Valid()
      modifies this`buf
      ensures Valid() && Wrote(Boolean, Flag(b), old(buf), r)
    {
      r := WriteUnsigned(1, if b then 1 else 0);
    }

    /** `write_bytes`: raw octets, unaligned, all or none. */
    method WriteBytes(data: seq<byte>) returns (r: Result<()>)
      requires Valid() && |data| <= host.MaxLen()
      modifies this`buf
      ensures Valid() && buf == if r.Ok? then old(buf) + data else old(buf)
      ensures r == if old(|buf|) + |data| <= capacity then Ok(())
                   else Err(Fault(BoundsExceeded, old(|buf|), |data|, capacity - old(|buf|)))
    {
      ghost var before := buf;
      var _ :- AlignAndReserve(1, |data|);
      assert buf == before;
      buf := buf + data;
      return Ok(());
    }

    method WriteString(text: Str, bound: Option<nat>) returns (r: Result<()>)
      requires Valid() && |ToUtf8(text)| <= host.MaxLen()
      modifies this`buf
      ensures Valid() && Wrote(String(bound), Text(text), old(buf), r)
    {
      hide Encode, PaddingFor, ToUtf8;
      ghost var before := buf;
      var fieldStart := |buf|;
      var remCap := capacity - |buf|;
      var pad := PaddingFor(fieldStart, 4);
      var payload := ToUtf8(text);
      if Over(|payload|, bound) {
        return Err(Fault(BoundsExceeded, fieldStart, |payload|, bound.value));
      }
      var capMax := MaxPayload(fieldStart, remCap);
      if capMax < 0 {
        if |payload| > 0 {
          return Err(Fault(BoundsExceeded, fieldStart, pad + 4 + (1 + 1), remCap));
        }
      } else if |payload| > capMax {
        return Err(Fault(BoundsExceeded, fieldStart, pad + 4 + (capMax + 1 + 1), remCap));
      }
      var wireLen := CheckedAdd(host, |payload|, 1);
      if wireLen.None? {
        assert false;
      }
      var bodySize := CheckedAdd(host, 4, wireLen.value);
      if bodySize.None? {
        assert false;
      }
      var _ :- AlignAndReserve(4, bodySize.value);
      if wireLen.value > U32_MAX {
        assert false;  // u32::try_from after the reservation never fails
      }
      WriteU32Raw(wireLen.value);
      buf := buf + payload;
      buf := buf + [0];
      assert buf == before + (Zeros(pad) + (Encode(endian, |payload| + 1, 4) + payload + [0]));
      return Ok(());
    }

    method WriteWString(text: Str, bound: Option<nat>) returns (r: Result<()>)
      requires Valid() && |text| <= host.MaxLen()
      modifies this`buf
      ensures Valid() && Wrote(WString(bound), Text(text), old(buf), r)
    {
      hide Encode, PaddingFor, Slots;
      ghost var before := buf;
      var fieldStart := |buf|;
      var remCap := capacity - |buf|;
      var pad := PaddingFor(fieldStart, 4);
      var capMax := MaxScalars(fieldStart, remCap);
      var count := 0;
      while count < |text|
        invariant count <= |text| && (bound.Some? ==> count <= bound.value)
        invariant count == 0 || count <= capMax
      {
        if !IsScalar(text[count]) {
          assert false;  // a Rust char is never a surrogate
        }
        var nextCount := count + 1;
        if Over(nextCount, bound) {
          return Err(Fault(BoundsExceeded, fieldStart, nextCount, bound.value));
        }
        if capMax < 0 || nextCount > capMax {
          var least := if capMax < 0 then 1 else capMax + 1;
          return Err(Fault(BoundsExceeded, fieldStart, pad + 4 + 4 * least, remCap));
        }
        count := nextCount;
      }
      var payload := CheckedMul(host, count, 4);
      if payload.None? {
        assert false;
      }
      var bodySize := CheckedAdd(host, 4, payload.value);
      if bodySize.None? {
        assert false;
      }
      var _ :- AlignAndReserve(4, bodySize.value);
      if count > U32_MAX {
        assert false;
      }
      WriteU32Raw(count);
      WriteSlots(text);
      assert buf == before + (Zeros(pad) + (Encode(endian, |text|, 4) + Slots(endian, text)));
      return Ok(());
    }

    /** The second pass of `write_wstring`. */
    method WriteSlots(text: Str)
      modifies this`buf
      ensures buf == old(buf) + Slots(endian, text)
    {
      hide Encode;
      for i := 0 to |text|
        invariant buf == old(buf) + Slots(endian, text[..i])
      {
        WriteU32Raw(text[i]);
        SlotsAppend(endian, text[..i], text[i]);
        assert text[..i + 1] == text[..i] + [text[i]];
      }
      assert text[..|text|] == text;
    }

    method WriteSequenceLength(n: nat, bound: Option<nat>) returns (r: Result<()>)
      requires Valid() && n <= U32_MAX
      modifies this`buf
      ensures Valid() && Wrote(SeqLen(bound), Number(n), old(buf), r)
    {
      hide Encode, PaddingFor;
      ghost var before := buf;
      if Over(n, bound) {
        return Err(Fault(BoundsExceeded, |buf|, n, bound.value));
      }
      if n > limits.maxStream {
        return Err(Fault(BoundsExceeded, |buf|, n, limits.maxStream));
      }
      var _ :- AlignAndReserve(4, 4);
      WriteU32Raw(n);
      assert buf == before + (Zeros(PaddingFor(|before|, 4)) + Encode(endian, n, 4));
      return Ok(());
    }

    method WriteByteSequence(data: seq<byte>, bound: Option<nat>) returns (r: Result<()>)
      requires Valid() && |data| <= host.MaxLen()
      modifies this`buf
      ensures Valid() && Wrote(ByteSeq(bound), Octets(data), old(buf), r)
    {
      hide Encode, PaddingFor;
      ghost var before := buf;
      if Over(|data|, bound) {
        return Err(Fault(BoundsExceeded, |buf|, |data|, bound.value));
      }
      if |data| > limits.maxStream {
        return Err(Fault(BoundsExceeded, |buf|, |data|, limits.maxStream));
      }
      var bodySize := CheckedAdd(host, 4, |data|);
      if bodySize.None? {
        assert false;
      }
      var _ :- AlignAndReserve(4, bodySize.value);
      if |data| > U32_MAX {
        assert false;
      }
      WriteU32Raw(|data|);
      buf := buf + data;
      assert buf == before + (Zeros(PaddingFor(|before|, 4)) + (Encode(endian, |data|, 4) + data));
      return Ok(());
    }

    method EnterNested(parent: nat) returns (r: Result<nat>)
      requires Valid() && parent <= limits.maxDepth
      ensures r.Ok? <==> parent < limits.maxDepth
      ensures r == if parent < limits.maxDepth then Ok(parent + 1)
                   else Err(Fault(BoundsExceeded, |buf|, parent + 1, limits.maxDepth))
    {
      var next := parent + 1;
      if next > limits.maxDepth {
        return Err(Fault(BoundsExceeded, |buf|, next, limits.maxDepth));
      }
      return Ok(next);
    }
  }

  /** `CdrWriter::new`. */
  method NewWriter(e: Endian, limits: Limits, host: Host) returns (r: Result<CdrWriter>)
    ensures r.Ok? <==> limits.Accepted() && HEADER_LENGTH <= limits.maxTemp
    ensures r.Ok? ==>
      && fresh(r.value) && r.value.Valid() && r.value.buf == Header(e)
      && r.value.endian == e && r.value.limits == limits && r.value.host == host
    ensures r.Err? && limits.Accepted() ==> r.fault == Fault(BoundsExceeded, 0, HEADER_LENGTH, limits.maxTemp)
  {
    match Validate(limits) {
      case Some(fault) =>
        return Err(fault);
      case None =>
        if WriterCapacity(limits) < HEADER_LENGTH {
          return Err(Fault(BoundsExceeded, 0, HEADER_LENGTH, limits.maxTemp));
        }
        var writer := new CdrWriter(e, limits, host);
        return Ok(writer);
    }
  }
}
