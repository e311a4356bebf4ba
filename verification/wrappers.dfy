/** Failure-carrying values used where the source returns null or throws. */
module Wrappers {

  /** A value that may be absent: the model of `T | null` and of an array hole. */
  datatype Option<+T> = None | Some(value: T)

  /** The outcome of an operation that either succeeds with a value or throws an error. */
  datatype Result<+T, +E> = Success(value: T) | Failure(error: E)
}
