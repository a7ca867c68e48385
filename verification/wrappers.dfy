/** Option and Result, the two failure-carrying shapes used throughout the model.
    A Python exception that escapes an operation is a `Failure`; a value that may be
    absent (`None`, a missing dictionary key) is an `Option`. */
module Wrappers {

  datatype Option<+T> = None | Some(value: T)

  datatype Result<+R, +E> = Success(value: R) | Failure(error: E) {

    predicate IsFailure() {
      Failure?
    }

    function PropagateFailure<U>(): Result<U, E>
      requires Failure?
    {
      Failure(error)
    }

    function Extract(): R
      requires Success?
    {
      value
    }
  }
}
