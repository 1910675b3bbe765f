/** Small result types shared by the schemas and the request handlers. */
module Wrappers {

  /** A value that may be missing. As the result of a schema check, `None` means "rejected". */
  datatype Option<+T> = None | Some(value: T) {
    predicate IsFailure() { None? }

    function PropagateFailure<U>(): Option<U>
      requires None?
    {
      None
    }

    function Extract(): T
      requires Some?
    {
      value
    }
  }

  /** What a request handler answers: a success status with its payload, or an error status. */
  datatype Outcome<+T> = Ok(status: nat, value: T) | Err(status: nat)
}
