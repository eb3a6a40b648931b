/** Option and Result, the failure-carrying values used across the model. */
module Wrappers {

  datatype Option<+T> = None | Some(value: T)

  /** A value or an error; the error stands for a Python exception or an error return. */
  datatype Result<+T, +E> = Ok(value: T) | Err(error: E)
}
