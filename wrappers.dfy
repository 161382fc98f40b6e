/** Optional values and the outcome of a step that may fail with a message. */
module Wrappers {

  /** A value that may be absent (JavaScript's `undefined` / `null`). */
  datatype Option<+T> = None | Some(value: T) {

    /** The value, or `default` when absent (`x || default` on a present, truthy value). */
    function GetOr(default: T): T {
      match this
      case Some(v) => v
      case None => default
    }
  }

  /** A result carrying a value or an error. */
  datatype Result<+T, +E> = Ok(value: T) | Err(error: E)

  /** Success, or failure with the message of the error that was thrown. */
  datatype Outcome = Pass | Fail(message: string)
}
