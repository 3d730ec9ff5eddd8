/** Failure-compatible wrappers: a missing value, and a value or an error message. */
module Wrappers {

  datatype Option<+T> = None | Some(value: T)

  /** The outcome of an operation that throws in the source: its value, or the
      message of the error it throws. */
  datatype Result<+T> = Ok(value: T) | Err(message: string)
}
