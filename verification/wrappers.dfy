/** Failure-carrying values shared by every module of the model. */
module Wrappers {

  datatype Option<+T> = None | Some(value: T)

  /** The outcome of an operation that may raise: `Err` carries what was raised. */
  datatype Result<+T, +E> = Ok(value: T) | Err(error: E)
}
