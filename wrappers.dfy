/**
 * Option and Result, the two failure-carrying wrappers the model uses for
 * Rust's `Option<T>` and `Result<T, E>`. Result is failure-compatible, so
 * `var x :- R; ...` mirrors the `?` operator of the source.
 */
module Wrappers {

  datatype Option<+T> = None | Some(value: T)

  datatype Result<+T, +E> = Success(value: T) | Failure(error: E) {

    predicate IsFailure() {
      Failure?
    }

    function PropagateFailure<U>(): Result<U, E>
      requires Failure?
    {
      Failure(error)
    }

    function Extract(): T
      requires Success?
    {
      value
    }
  }
}
