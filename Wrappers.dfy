/** Failure-carrying wrappers used throughout the model. */
module Wrappers {

  /** A value that may be absent (a nil pointer, a missing option, a failed hash). */
  datatype Option<+T> = None | Some(value: T)

  /** A computation that either yields a value or fails with an error message. */
  datatype Result<+T> = Ok(value: T) | Err(error: string)
}
