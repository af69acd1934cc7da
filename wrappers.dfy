/** Optional values and results shared by the weather model. */
module Wrappers {

  /** A value that may be absent: an optional JSON field, `undefined` or `null`. */
  datatype Option<+T> = None | Some(value: T)

  /** The outcome of a call that either produces a value or fails with an error. */
  datatype Result<+T, +E> = Success(value: T) | Failure(error: E)
}
