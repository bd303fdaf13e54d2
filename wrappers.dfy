/** Failure-compatible result types shared by every module of the model. */
module Wrappers {

  /** An optional value: Python's `None` or a present value. */
  datatype Option<+T> = None | Some(value: T) {
    function GetOr(default: T): T {
      match this
      case Some(v) => v
      case None => default
    }
  }

  /** The outcome of an operation that can raise: a value or the error it raised. */
  datatype Result<+T, +E> = Success(value: T) | Failure(error: E) {
    predicate IsFailure() {
      Failure?
    }

    function PropagateFailure<U>(): Result<U, E>
      requires Failure?
    {
      Failure(error)
    }

    function Extract(): T
      requires Success?
    {
      value
    }
  }
}
