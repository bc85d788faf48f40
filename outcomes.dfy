/** The shapes of Go's `error` results. */
module Outcomes {

  /** A Go `error` return: nil (`Pass`) or an error carrying its message. */
  datatype Outcome = Pass | Fail(error: string)

  /** A value together with a nil error, or an error. */
  datatype Result<T> = Ok(value: T) | Err(error: string)
}
