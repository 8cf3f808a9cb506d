/** Failure-compatible result types shared by the schema, the service and the UI. */
module Wrappers {

  /** A value that may be absent (an omitted JSON key, a `null` reply). */
  datatype Option<+T> = None | Some(value: T) {
    function GetOr(default: T): T {
      match this
      case Some(v) => v
      case None => default
    }
  }

  /** The outcome of a call that yields a value or fails with an error. */
  datatype Result<+R, +E> = Ok(value: R) | Err(error: E)

  /** The outcome of a call whose only interesting result is failure. */
  datatype Outcome<+E> = Pass | Fail(error: E)
}
