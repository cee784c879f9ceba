/** Option, Result and Outcome: the error-carrying values used across the model
    in place of Python's None and raised exceptions. */
module Wrappers {

  /** A value that may be absent (Python's None). */
  datatype Option<+T> = None | Some(value: T)

  /** Either a value or the error that the source raises instead of returning it. */
  datatype Result<+T, +E> = Success(value: T) | Failure(error: E)

  /** The result of an operation that returns nothing but may raise. */
  datatype Outcome<+E> = Pass | Fail(error: E)
}
