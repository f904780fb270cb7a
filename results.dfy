/**
 * Error outcomes of the codec. Every failure the source reports through a
 * `Result` (a short read, a width mismatch while writing) and every abort
 * it reaches on bad input (an unknown constant-pool tag, a pool count of 0)
 * is an `Error` value here.
 */
module Results {
  import opened Numeric

  datatype Error =
    /** The stream ended before a fixed-width read was satisfied. */
    | ReadError(wanted: nat, available: nat)
    /** The big-endian encoding of a value did not have the declared width. */
    | WriteError(expected: int, found: int)
    /** A constant-pool entry starts with a tag byte the decoder does not know. */
    | UnknownTag(tag: u8)
    /** `constant_pool_count - 1` on a count of 0. */
    | CountUnderflow
    /** A Long or Double entry in the last slot, leaving no room for its reserved slot. */
    | WideEntryInLastSlot
    /** An attribute whose name index does not lead to a known attribute name. */
    | UnknownAttribute(nameIndex: u16)
    /** The wire value 1 in a field that the encoder writes as k+1 for k > 0. */
    | UnusedIndex

  datatype Result<+T> = Ok(value: T) | Err(error: Error) {
    predicate IsFailure() {
      Err?
    }

    function PropagateFailure<U>(): Result<U>
      requires Err?
    {
      Err(error)
    }

    function Extract(): T
      requires Ok?
    {
      value
    }
  }

  /** An optional value: an empty constant-pool slot is `None`. */
  datatype Option<+T> = None | Some(value: T)

  /** The result of an operation that produces no value. */
  datatype Outcome = Pass | Fail(error: Error) {
    predicate IsFailure() {
      Fail?
    }

    function PropagateFailure(): Outcome
      requires Fail?
    {
      this
    }
  }
}
