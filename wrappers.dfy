/** Failure-compatible result types shared by the model's modules. */
module Wrappers {

  /** A value that may be absent (Python's `Optional`). */
  datatype Option<+T> = None | Some(value: T)

  /** A value or the exception the source would raise instead. */
  datatype Result<+T, +E> = Success(value: T) | Failure(error: E)

  /** The outcome of an operation that returns nothing (`None`) or raises. */
  datatype Outcome<+E> = Pass | Fail(error: E)
}
