/** Option and Result, the failure-carrying values of the model. */
module Wrappers {

  /** A value that may be absent: a NULL pointer or an optional argument. */
  datatype Option<+T> = None | Some(value: T)

  /** The outcome of an operation that can fail with an error value. */
  datatype Result<+R, +E> = Success(value: R) | Failure(error: E)
}
