/** Option and Result, the two failure-carrying datatypes used across the model. */
module Wrappers {

  /** A value that may be absent: stands for a C pointer that may be null. */
  datatype Option<+T> = None | Some(value: T)

  /** The outcome of an operation that either yields a value or raises an error. */
  datatype Result<+T, +E> = Ok(value: T) | Err(error: E)
}
