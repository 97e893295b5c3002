/** Failure-carrying values used across the model in place of Go's `(T, error)` returns. */
module Wrappers {

  datatype Option<+T> = None | Some(value: T) {
    function GetOr(default: T): T {
      match this
      case Some(v) => v
      case None => default
    }
  }

  /** `Ok(v)` is a nil error with result `v`; `Err(text)` carries the error's text. */
  datatype Result<+T> = Ok(value: T) | Err(error: string)

  /** A Go `error` on its own: `Pass` is nil, `Fail(text)` is an error with that text. */
  datatype Outcome = Pass | Fail(error: string)
}
