/** Option and Result, the failure-compatible wrappers used by every decoder
    in this model (`:-` propagates a `None` or a `Failure`). */
module Wrappers {

  /** A value that may be absent; a Go pointer field that is nil or set. */
  datatype Option<+T> = None | Some(value: T) {

    predicate IsFailure() {
      None?
    }

    function PropagateFailure<U>(): Option<U>
      requires None?
    {
      None
    }

    function Extract(): T
      requires Some?
    {
      value
    }
  }

  /** The outcome of a Go call that returns `(value, error)` with a nil error
      on success. */
  datatype Result<+R, +E> = Success(value: R) | Failure(error: E) {

    predicate IsFailure() {
      Failure?
    }

    function PropagateFailure<U>(): Result<U, E>
      requires Failure?
    {
      Failure(error)
    }

    function Extract(): R
      requires Success?
    {
      value
    }
  }
}
