/** Optional values and success-or-error results, in the style used throughout the model. */
module Wrappers {

  /** A value that may be absent (Python's `None`). */
  datatype Option<+T> = None | Some(value: T)

  /** Either a computed value or an error. */
  datatype Result<+R, +E> = Success(value: R) | Failure(error: E)
}
