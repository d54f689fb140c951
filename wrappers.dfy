/** Failure-carrying wrappers shared by every module of the model. */
module Wrappers {

  /** A value that may be absent: JavaScript's `null`/`undefined` results. */
  datatype Option<+T> = None | Some(value: T)

  /** The outcome of an operation that may throw: `Err` carries the error message. */
  datatype Result<+T> = Ok(value: T) | Err(message: string)
}
