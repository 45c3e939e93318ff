/** Option, Result and Outcome: the optional values, error returns and
    error-only returns shared by every module of the model. */
module Wrappers {

  /** A value that may be missing (JavaScript `undefined`, a Go `nil`). */
  datatype Option<+T> = None | Some(value: T)

  /** A call that returns a value or an error. */
  datatype Result<+T, +E> = Ok(value: T) | Err(error: E)

  /** A call that returns only an error, or nothing (Go's `error` result). */
  datatype Outcome<+E> = Pass | Fail(error: E)
}
