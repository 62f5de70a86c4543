/** Failure-carrying values shared by every module of the model. */
module Wrappers {

  /** A value that may be absent: `undefined` or `null` in JavaScript. */
  datatype Option<+T> = None | Some(value: T)

  /** The outcome of an operation that can throw. */
  datatype Result<+T, +E> = Ok(value: T) | Err(error: E)
}
