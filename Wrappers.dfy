/** Failure-carrying return values standing in for the exceptions the Python code raises. */
module Wrappers {

  datatype Option<+T> = None | Some(value: T)

  /** A computed value or the error that a Python `raise` would have carried. */
  datatype Result<+R, +E> = Success(value: R) | Failure(error: E) {
    predicate IsFailure() { Failure? }

    function PropagateFailure<U>(): Result<U, E>
      requires Failure?
    {
      Failure(error)
    }

    function Extract(): R
      requires Success?
    {
      value
    }
  }

  /** The outcome of a step run only for its effect: it completed, or it raised. */
  datatype Outcome<+E> = Pass | Fail(error: E)
}
