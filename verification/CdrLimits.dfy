/** Resource ceilings, faults and size arithmetic shared by the CDR reader and writer. */
module CdrLimits {
  import opened ByteOrder

  const BODY_ORIGIN: nat := 4
  const HEADER_LENGTH: nat := 4
  const MAX_STREAM: nat := 67_108_864
  const MAX_DEPTH: nat := 64

  datatype FaultCode =
    | InvalidEncapsulation | UnsupportedRepresentation | InvalidLimits | Truncated | InvalidBoolean
    | InvalidUtf8 | InvalidWstringScalar | MissingStringTerminator | BoundsExceeded | LengthOverflow
    | AlignmentOverflow | TrailingData

  datatype Fault = Fault(code: FaultCode, offset: nat, needed: nat, remaining: nat)

  /** Result of an operation on a cursor: the value, or the fault. */
  datatype Result<+T> = Ok(value: T) | Err(fault: Fault) {
    predicate IsFailure() {
      Err?
    }

    function PropagateFailure<U>(): Result<U>
      requires Err?
    {
      Err(fault)
    }

    function Extract(): T
      requires Ok?
    {
      value
    }
  }

  /** The two pointer widths the crate is built for. A Rust slice or vector never
      holds more than `isize::MAX` octets. */
  datatype Host = Host32 | Host64 {
    function Max(): nat {
      if Host32? then U32_MAX else U64_MAX
    }

    function MaxLen(): nat {
      Max() / 2
    }
  }

  function CheckedAdd(host: Host, a: nat, b: nat): Option<nat> {
    if a + b <= host.Max() then Some(a + b) else None
  }

  function CheckedMul(host: Host, a: nat, b: nat): Option<nat> {
    if a * b <= host.Max() then Some(a * b) else None
  }

  datatype Limits = Limits(maxStream: nat, maxDepth: nat, maxTemp: nat) {
    predicate Accepted() {
      HEADER_LENGTH <= maxStream <= MAX_STREAM && 1 <= maxDepth <= MAX_DEPTH && maxTemp <= maxStream
    }
  }

  const DEFAULTS := Limits(MAX_STREAM, MAX_DEPTH, MAX_STREAM)

  /** `CdrLimits::validate`: accepts exactly the documented ranges and names the first
      range left, stream before depth before temporary allocation. */
  function Validate(l: Limits): (fault: Option<Fault>)
    ensures fault.None? <==> l.Accepted()
    ensures fault.Some? ==> fault.value.code == InvalidLimits && fault.value.offset == 0
  {
    if l.maxStream < HEADER_LENGTH || l.maxStream > MAX_STREAM then
      Some(Fault(InvalidLimits, 0, l.maxStream, MAX_STREAM))
    else if l.maxDepth < 1 || l.maxDepth > MAX_DEPTH then
      Some(Fault(InvalidLimits, 0, l.maxDepth, MAX_DEPTH))
    else if l.maxTemp > l.maxStream then
      Some(Fault(InvalidLimits, 0, l.maxTemp, l.maxStream))
    else None
  }

  type Width = w: nat | w == 1 || w == 2 || w == 4 || w == 8 witness 1

  /** `at % align`, spelled out for the four alignments of CDR1. */
  function Remainder(at: nat, align: Width): (r: nat)
    ensures r < align
  {
    if align == 1 then 0 else if align == 2 then at % 2 else if align == 4 then at % 4 else at % 8
  }

  predicate Aligned(at: nat, align: Width) {
    BODY_ORIGIN <= at && Remainder(at - BODY_ORIGIN, align) == 0
  }

  /** Padding in front of a field of alignment `align`, counted from the body origin. */
  function PaddingFor(offset: nat, align: Width): (pad: nat)
    requires BODY_ORIGIN <= offset
    ensures pad < align
    ensures Aligned(offset + pad, align)
    ensures forall at :: offset <= at < offset + pad ==> !Aligned(at, align)
  {
    if align <= 1 then 0
    else
      var rem := Remainder(offset - BODY_ORIGIN, align);
      if rem == 0 then 0 else align - rem
  }

  /** `writer_capacity`. */
  function WriterCapacity(l: Limits): nat {
    if l.maxTemp < l.maxStream then l.maxTemp else l.maxStream
  }
}
