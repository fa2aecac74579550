/** Optional values and success-or-error results shared by every module. */
module Wrappers {

  /** A value that may be absent: `null`/`undefined` in the source. */
  datatype Option<+T> = None | Some(value: T) {
    function GetOr(default: T): T {
      match this
      case Some(v) => v
      case None => default
    }
  }

  /** An operation that either yields a value or fails with a message (a rejected promise). */
  datatype Result<+T> = Success(value: T) | Failure(error: string)
}
