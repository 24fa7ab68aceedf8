/** Option and Result, the two failure-carrying values the pipeline passes around. */
module Wrappers {

  /** A value that may be absent (Python's `None` versus a value). */
  datatype Option<+T> = None | Some(value: T)

  /** A value, or the exception that was raised instead of producing it. */
  datatype Result<+T, +E> = Success(value: T) | Failure(error: E)
}
