/** Option and Result, the two failure-carrying wrappers the rest of the model uses. */
module Wrappers {

  datatype Option<+T> = None | Some(value: T)

  /** The outcome of a computation that either produces a value or raises. */
  datatype Result<+R, +E> = Success(value: R) | Failure(error: E)
}
