/** Optional values and results with an error, as used throughout the proxy model. */
module Wrappers {

  /** A value that may be absent (the source's `null`). */
  datatype Option<+T> = None | Some(value: T)

  /** The outcome of an operation that can fail (the source's thrown `Error`). */
  datatype Result<+T, +E> = Success(value: T) | Failure(error: E)
}
