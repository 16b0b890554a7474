/** Failure-carrying values used throughout the model in place of Python exceptions. */
module Wrappers {

  datatype Option<+T> = None | Some(value: T)

  datatype Result<+T, +E> = Ok(value: T) | Err(error: E)

  /** The message of the IndexError Python raises for a list index out of range. */
  const IndexOutOfRange := "list index out of range"
}
