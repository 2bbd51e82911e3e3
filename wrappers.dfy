/** Failure-carrying values used throughout the model in place of thrown
    exceptions, `null`/`undefined` and `NaN`. */
module Wrappers {

  /** A value that may be missing (`undefined`, `null`, or `NaN` for numbers). */
  datatype Option<+T> = None | Some(value: T) {
    function GetOr(default: T): T {
      match this
      case Some(v) => v
      case None => default
    }
  }

  /** The outcome of an operation that either returns a value or throws. */
  datatype Result<+T, +E> = Ok(value: T) | Err(error: E)

  /** The outcome of an operation that returns nothing or throws. */
  datatype Outcome<+E> = Pass | Fail(error: E)
}
