/** Failure-compatible result types used for the error paths of the simulator. */
module Wrappers {

  /** Either a value or the error that stopped the computation. */
  datatype Result<+T, +E> = Success(value: T) | Failure(error: E) {
    predicate IsFailure() {
      Failure?
    }

    function PropagateFailure<U>(): Result<U, E>
      requires Failure?
    {
      Failure(error)
    }

    function Extract(): T
      requires Success?
    {
      value
    }
  }

  /** The outcome of a step that yields no value: it passed, or it failed with an error. */
  datatype Outcome<+E> = Pass | Fail(error: E)
}
