/** Failure-compatible result types used for the promise rejections of the source. */
module Wrappers {

  datatype Option<+T> = None | Some(value: T)

  /** A settled promise that carries a value: fulfilled (`Success`) or rejected (`Failure`). */
  datatype Result<+R, +E> = Success(value: R) | Failure(error: E) {
    predicate IsFailure() { Failure? }

    function PropagateFailure<U>(): Result<U, E>
      requires Failure?
    {
      Failure(error)
    }

    function Extract(): R
      requires Success?
    {
      value
    }
  }

  /** A settled `Promise<void>`: resolved (`Pass`) or rejected (`Fail`). */
  datatype Outcome<+E> = Pass | Fail(error: E)
}
