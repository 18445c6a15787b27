/** Failure-carrying values used in place of Python's exceptions. */
module Wrappers {

  datatype Option<+T> = None | Some(value: T)

  /** Either a value or the error that a Python `raise` would carry. */
  datatype Result<+T, +E> = Ok(value: T) | Err(error: E)
}
