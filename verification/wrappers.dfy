/** Failure-compatible result types used for the routing process's error paths. */
module Wrappers {

  /** The conventional Some/None datatype, used in place of a nullable reference. */
  datatype Option<+T> = None | Some(value: T)

  /** Either a value or the error that aborted the computation (the source throws). */
  datatype Result<+T, +E> = Success(value: T) | Failure(error: E) {

    predicate IsFailure() {
      Failure?
    }

    function PropagateFailure<U>(): Result<U, E>
      requires Failure?
    {
      Failure(error)
    }

    function Extract(): T
      requires Success?
    {
      value
    }
  }
}
