/** Failure-compatible wrappers: Go's `(T, error)` returns become `Result<T, E>`,
    and Go's nil-able pointers become `Option<T>`. */
module Wrappers {

  datatype Option<+T> = None | Some(value: T) {
    function GetOr(default: T): T {
      match this
      case Some(v) => v
      case None => default
    }
  }

  datatype Result<+T, +E> = Success(value: T) | Failure(error: E) {
    predicate IsFailure() {
      Failure?
    }

    function PropagateFailure<U>(): Result<U, E>
      requires Failure?
    {
      Failure(error)
    }

    function Extract(): T
      requires Success?
    {
      value
    }
  }

  /** A check that either passes or carries an error, for validators that return only `error`. */
  datatype Outcome<+E> = Pass | Fail(error: E)
}
