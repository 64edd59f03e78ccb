/** Failure-compatible wrappers used in place of Python's exceptions and missing keys. */
module Wrappers {

  /** A value that may be absent (a dictionary lookup that can miss). */
  datatype Option<+T> = None | Some(value: T)

  /** Either a computed value or the error the source would raise. */
  datatype Result<+T, +E> = Success(value: T) | Failure(error: E)
}
