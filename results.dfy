/** Failure-compatible wrappers and the two Python exceptions the parser can raise. */
module Results {

  datatype Option<+T> = None | Some(value: T)

  /** The exceptions that escape a read: `float()`/`int()` on a bad token raises
      ValueError (the message names the token, except for `int()`'s digit-limit
      error, whose message gives the digit count instead; the model tags that
      one with the token like any other), a list index past the end raises
      IndexError (the message names no index). */
  datatype Error = ValueError(token: string) | IndexError

  datatype Result<+R> = Success(value: R) | Failure(error: Error) {
    predicate IsFailure() {
      Failure?
    }

    function PropagateFailure<U>(): Result<U>
      requires Failure?
    {
      Failure(error)
    }

    function Extract(): R
      requires Success?
    {
      value
    }
  }
}
