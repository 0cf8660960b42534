/** Vocabulary shared by every module: the protocol's error codes and the two
    wrappers that stand for the source's thrown errors and absent values. */
module Core {

  /** The closed list of codes an `AcapError` may carry. */
  datatype ErrorCode =
    | INVALID_ARGUMENT
    | UNAUTHENTICATED
    | PERMISSION_DENIED
    | NOT_FOUND
    | INCOMPATIBLE_VERSION
    | CONTRACT_MISMATCH
    | CONFLICT
    | DEADLINE_EXCEEDED
    | CANCELLED
    | UNAVAILABLE
    | RESOURCE_EXHAUSTED
    | FAILED_PRECONDITION
    | INTERNAL

  datatype Option<+T> = None | Some(value: T)

  /** A call either returns a value or throws an `AcapError`. */
  datatype Result<+T> = Ok(value: T) | Err(code: ErrorCode) {
    predicate IsFailure() {
      Err?
    }

    function PropagateFailure<U>(): Result<U>
      requires Err?
    {
      Err(code)
    }

    function Extract(): T
      requires Ok?
    {
      value
    }
  }

  /** Number.MAX_SAFE_INTEGER. */
  const MAX_SAFE: int := 9007199254740991
}
