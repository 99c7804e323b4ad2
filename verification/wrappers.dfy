/** Failure-carrying wrappers used throughout the model. */
module Wrappers {

  /** A value that may be absent: JavaScript's `undefined`/`null` next to a present value. */
  datatype Option<+T> = None | Some(value: T)

  /** The outcome of a validation: the accepted value, or the error report. */
  datatype Result<+T, +E> = Ok(value: T) | Err(error: E)
}
