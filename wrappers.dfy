/** Option and Result, the failure-compatible wrappers used throughout the model.
    A `Failure` plays the part of a thrown JavaScript exception: `:-` propagates it
    the way `await`/`throw` unwinds to the nearest `catch`. */
module Wrappers {

  datatype Option<+T> = None | Some(value: T)

  datatype Result<+R, +E> = Success(value: R) | Failure(error: E) {

    predicate IsFailure() {
      Failure?
    }

    function PropagateFailure<U>(): Result<U, E>
      requires Failure?
    {
      Failure(error)
    }

    function Extract(): R
      requires Success?
    {
      value
    }
  }
}
