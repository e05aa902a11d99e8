/** Failure-compatible result types used by the write model. */
module Wrappers {

  /** A value that may be absent; `None` also stands for "the library call raised". */
  datatype Option<+T> = None | Some(value: T)

  /** The outcome of a step that may raise in the plugin: a value, or the reason it raised. */
  datatype Result<+R, +E> = Success(value: R) | Failure(error: E) {

    predicate IsFailure() {
      Failure?
    }

    function PropagateFailure<U>(): Result<U, E>
      requires Failure?
    {
      Failure(error)
    }

    function Extract(): R
      requires Success?
    {
      value
    }
  }
}
