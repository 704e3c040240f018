/** Failure-compatible wrappers: Python's `None`-returning lookups become `Option`,
    raised exceptions become the `Failure` / `Fail` arm. */
module Wrappers {

  datatype Option<+T> = None | Some(value: T)

  datatype Result<+T, +E> = Success(value: T) | Failure(error: E) {
    predicate IsFailure() {
      Failure?
    }

    function PropagateFailure<U>(): Result<U, E>
      requires Failure?
    {
      Failure(error)
    }

    function Extract(): T
      requires Success?
    {
      value
    }
  }

  /** The outcome of a Python method that returns `None` or raises. */
  datatype Outcome<+E> = Pass | Fail(error: E)
}
