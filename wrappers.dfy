/** Failure-carrying values used across the model: Python's `None` and raised exceptions. */
module Wrappers {

  /** A value that may be absent (Python's `None`). */
  datatype Option<+T> = None | Some(value: T)

  /** The outcome of a call that may raise: its return value or the error it raised. */
  datatype Result<+T, +E> = Ok(value: T) | Err(error: E)
}
