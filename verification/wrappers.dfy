/** Failure-carrying values used throughout the model. */
module Wrappers {

  /** A value that may be absent: a JavaScript `null` or `undefined`. */
  datatype Option<+T> = None | Some(value: T)

  /** The outcome of an operation that can fail with an error of type E. */
  datatype Result<+R, +E> = Success(value: R) | Failure(error: E)
}
