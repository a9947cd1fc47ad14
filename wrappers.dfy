/** Option and Result, the two failure-carrying shapes used throughout the model. */
module Wrappers {

  /** A value that may be absent: TypeScript's `T | null`. */
  datatype Option<+T> = None | Some(value: T)

  /** The outcome of an operation that can throw or reject. */
  datatype Result<+T, +E> = Ok(value: T) | Err(error: E)
}
