/** Failure-carrying values shared by the whole model. */
module Wrappers {

  /** A value that may be absent: TypeScript's `null` / `undefined`. */
  datatype Option<+T> = None | Some(value: T) {
    function GetOr(default: T): T {
      match this
      case Some(v) => v
      case None => default
    }
  }

  /** The result of a placeholder API call: a value, or the message of the error it throws. */
  datatype Result<+R> = Success(value: R) | Failure(message: string)

  /** How a promise that a component awaits settles: resolved, or rejected with a message. */
  datatype Outcome = Resolved | Rejected(message: string)
}
