/** Failure-carrying values used across the model. */
module Wrappers {

  datatype Option<+T> = None | Some(value: T)

  /** The outcome of an operation that may raise: `Err` carries `str(e)`. */
  datatype Result<+T, +E> = Ok(value: T) | Err(error: E)
}
