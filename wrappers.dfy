/** Failure-compatible result types used for the exceptions the modelled C++ code throws. */
module Wrappers {

  datatype Option<+T> = None | Some(value: T)

  /** A value or the error that a C++ `throw` would have carried. */
  datatype Result<+T, +E> = Success(value: T) | Failure(error: E) {
    predicate IsFailure() { Failure? }

    function PropagateFailure<U>(): Result<U, E>
      requires Failure?
    {
      Failure(error)
    }

    function Extract(): T
      requires Success?
    {
      value
    }
  }

  /** The outcome of an operation that returns nothing but may throw. */
  datatype Outcome<+E> = Pass | Fail(error: E)
}
