/** What the functions that read octets make of them: a value and where reading goes on, or
    a failure, which ends every read it is part of. */
module Outcomes {
  import opened ByteOrder
  import opened CdrLimits

  /** A field of a CDR stream, by the Rust crate's rules. */
  datatype Parsed<+T> = Got(value: T, next: nat) | Bad(fault: Fault) {
    predicate IsFailure() {
      Bad?
    }

    function PropagateFailure<U>(): Parsed<U>
      requires Bad?
    {
      Bad(fault)
    }

    function Extract(): (pair: (T, nat))
      requires Got?
    {
      (value, next)
    }
  }

  /** What a read of the host decoder makes of the buffer: a value and where the cursor
      ends, or an error and where the cursor is left, alignment included. */
  datatype Read<+T> = Found(value: T, next: nat) | Throw(at: nat) {
    predicate IsFailure() {
      Throw?
    }

    function PropagateFailure<U>(): Read<U>
      requires Throw?
    {
      Throw(at)
    }

    function Extract(): (pair: (T, nat))
      requires Found?
    {
      (value, next)
    }
  }

  /** A member of a packed host value, and the octets after it. */
  datatype Taken<+T> = Has(value: T, rest: seq<byte>) | Short {
    predicate IsFailure() {
      Short?
    }

    function PropagateFailure<U>(): Taken<U>
      requires Short?
    {
      Short
    }

    function Extract(): (pair: (T, seq<byte>))
      requires Has?
    {
      (value, rest)
    }
  }
}
