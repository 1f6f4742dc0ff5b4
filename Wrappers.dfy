/** Failure-compatible wrappers shared by the other modules. */
module Wrappers {

  /** A value that may be absent (JavaScript `null`). */
  datatype Option<+T> = None | Some(value: T)

  /** The outcome of an operation that either yields a value or throws an `Error`
      carrying a message. */
  datatype Result<+T> = Ok(value: T) | Err(error: string)
}
