/** Failure-carrying values: Python's `None` results and raised exceptions. */
module Wrappers {

  /** A value that may be absent (Python's `None`). */
  datatype Option<+T> = None | Some(value: T)

  /** Either a value or the error that Python would have raised instead. */
  datatype Result<+T, +E> = Success(value: T) | Failure(error: E)
}
