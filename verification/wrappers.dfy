/** Failure-compatible wrappers shared by every module: `Option` for values
    that may be absent (a nil map, a missing member) and `Result` for Go's
    `(value, error)` return pairs. */
module Wrappers {

  datatype Option<+T> = None | Some(value: T) {

    predicate IsFailure() {
      None?
    }

    function PropagateFailure<U>(): Option<U>
      requires None?
    {
      None
    }

    function Extract(): T
      requires Some?
    {
      value
    }
  }

  datatype Result<+T, +E> = Success(value: T) | Failure(error: E) {

    predicate IsFailure() {
      Failure?
    }

    function PropagateFailure<U>(): Result<U, E>
      requires Failure?
    {
      Failure(error)
    }

    function Extract(): T
      requires Success?
    {
      value
    }

    /** Rewrites the error of a failure, leaving a success alone. */
    function MapFailure<F>(wrap: E -> F): Result<T, F>
    {
      match this
      case Success(v) => Success(v)
      case Failure(e) => Failure(wrap(e))
    }
  }
}
