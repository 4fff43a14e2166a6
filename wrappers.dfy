/** Option and Result, the two failure-carrying wrappers the model uses. */
module Wrappers {

  /** A value that may be absent; `None` stands for JavaScript `null` in a state field. */
  datatype Option<+T> = None | Some(value: T)

  /** The value of an expression, or the message of the exception it throws. */
  datatype Result<+R, +E> = Success(value: R) | Failure(error: E) {

    predicate IsFailure() {
      Failure?
    }

    function PropagateFailure<U>(): Result<U, E>
      requires Failure?
    {
      Failure(error)
    }

    function Extract(): R
      requires Success?
    {
      value
    }
  }
}
