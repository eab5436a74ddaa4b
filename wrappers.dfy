/** Failure-carrying values shared by the modules of this model. */
module Wrappers {

  /** A value that may be absent: an optional field, or a call that gave nothing. */
  datatype Option<+T> = None | Some(value: T)

  /** The outcome of an operation that the source lets throw: a value, or the error it throws. */
  datatype Result<+T, +E> = Ok(value: T) | Err(error: E)
}
