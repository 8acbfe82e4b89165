/** Optional values and outcomes that may fail, used throughout the model. */
module Wrappers {

  /** A value that may be absent (JavaScript's `null` for a missing entry). */
  datatype Option<+T> = None | Some(value: T)

  /** The outcome of an operation that may fail (a resolved or a rejected promise). */
  datatype Result<+T, +E> = Success(value: T) | Failure(error: E)
}
