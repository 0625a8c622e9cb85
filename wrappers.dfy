/** Optional values and success/failure outcomes, the model's stand-ins for
    `undefined`/`null` and for a thrown exception. */
module Wrappers {

  datatype Option<+T> = None | Some(value: T) {
    function GetOr(default: T): T {
      match this
      case Some(v) => v
      case None => default
    }
  }

  /** The outcome of a handler that may throw: `Fail` carries the error message. */
  datatype Outcome = Pass | Fail(error: string)
}
