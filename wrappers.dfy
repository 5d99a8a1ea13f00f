/** Failure-carrying values used for the Go `(value, error)` and `error` returns. */
module Wrappers {

  datatype Option<+T> = None | Some(value: T)

  /** A value or an error message. */
  datatype Result<+T> = Ok(value: T) | Err(error: string)

  /** Success without a value, or an error message (a Go `error` that may be nil). */
  datatype Outcome = Pass | Fail(error: string)
}
