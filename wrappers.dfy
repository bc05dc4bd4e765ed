/** Option and Result, the failure-carrying values used across the model. */
module Wrappers {

  /** A value that may be absent: JavaScript's `undefined` / `null`. */
  datatype Option<+T> = None | Some(value: T)

  /** The outcome of an operation that can throw: the value or the thrown error. */
  datatype Result<+T, +E> = Ok(value: T) | Err(error: E)
}
