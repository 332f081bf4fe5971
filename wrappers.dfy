/** Option and Result, the two failure-carrying wrappers used throughout the model. */
module Wrappers {

  datatype Option<+T> = None | Some(value: T)

  /** A computation that either yields a value or fails with the message of the error it throws. */
  datatype Result<+T> = Ok(value: T) | Err(error: string)
}
