/** Option and Result, the failure-carrying values the rest of the model uses
    where the source returns `undefined` or throws. */
module Wrappers {

  datatype Option<+T> = None | Some(value: T) {
    function GetOr(default: T): T {
      match this
      case Some(v) => v
      case None => default
    }
  }

  /** A computation that either yields a value or throws (a JavaScript TypeError, say). */
  datatype Result<+T> = Ok(value: T) | Throws(reason: string)
}
