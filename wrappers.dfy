/** Optional values and decode results used by the provider factory. */
module Wrappers {

  /** A value that may be absent; stands for a Go value that may be nil. */
  datatype Option<+T> = None | Some(value: T)

  /** The outcome of a decoder: a value, or the error it reported. */
  datatype Result<+R, +E> = Success(value: R) | Failure(error: E)
}
