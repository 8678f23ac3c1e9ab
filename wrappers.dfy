/** Optional values and outcomes that carry an error message. */
module Wrappers {

  /** A value that may be absent: an optional property (`x?: T`) or `T | null`. */
  datatype Option<+T> = None | Some(value: T)

  /** The outcome of an operation that either returns a value or throws an error. */
  datatype Result<+T, +E> = Success(value: T) | Failure(error: E)
}
