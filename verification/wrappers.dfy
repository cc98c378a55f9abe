/** Option and Result, standing for JavaScript's null/undefined and thrown errors. */
module Wrappers {

  /** `None` plays the part of `null` or `undefined`. */
  datatype Option<+T> = None | Some(value: T)

  /** `Failure` plays the part of an exception thrown to the caller. */
  datatype Result<+R, +E> = Success(value: R) | Failure(error: E)
}
