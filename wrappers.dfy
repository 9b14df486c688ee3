/** Failure-carrying values used in place of JavaScript's thrown errors and `null`. */
module Wrappers {

  /** `null` or a value. */
  datatype Option<+T> = None | Some(value: T)

  /** A value, or the message of the error that was thrown instead. */
  datatype Result<+T> = Ok(value: T) | Err(msg: string)

  /** A promise that resolves to nothing, or rejects with a message. */
  datatype Outcome = Pass | Fail(msg: string)
}
