/** Option and Result values used for absent arguments and for the error paths of the model. */
module Wrappers {

  /** A value that may be absent (JavaScript `undefined` or `null`). */
  datatype Option<+T> = None | Some(value: T)

  /** The outcome of an operation that can throw: its value, or the error it raises. */
  datatype Result<+R, +E> = Success(value: R) | Failure(error: E)
}
