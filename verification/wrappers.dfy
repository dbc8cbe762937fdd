/** Failure-compatible wrappers used throughout the model: an optional value, and the
    outcome of a JavaScript computation that either returns a value or throws. */
module Wrappers {

  /** A value that may be absent (JavaScript `undefined` for an optional field). */
  datatype Option<+T> = None | Some(value: T)

  /** A computation that returns `value` or throws `error`. */
  datatype Result<+T, +E> = Success(value: T) | Failure(error: E) {

    predicate IsFailure() {
      Failure?
    }

    function PropagateFailure<U>(): Result<U, E>
      requires Failure?
    {
      Failure(error)
    }

    function Extract(): T
      requires Success?
    {
      value
    }
  }
}
