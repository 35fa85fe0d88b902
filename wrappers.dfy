/** Option and Result values used throughout the model. */
module Wrappers {

  /** A value that may be absent (Python's `None`). */
  datatype Option<+T> = None | Some(value: T)

  /** The value of a call that may raise: `Failure` carries the exception. */
  datatype Result<+R, +E> = Success(value: R) | Failure(error: E)
}
