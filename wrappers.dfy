/** Failure-carrying values used by the request handler. */
module Wrappers {

  /** A value that may be absent: JavaScript's `null`/`undefined`. */
  datatype Option<+T> = None | Some(value: T)

  /** The outcome of a step that may throw: a value, or the error it raised. */
  datatype Result<+T, +E> = Ok(value: T) | Err(error: E)
}
