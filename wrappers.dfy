/** Optional values and thrown-or-returned outcomes, shared by every page model. */
module Wrappers {

  /** A value that may be missing: JavaScript's `undefined`/`null`, or `NaN` for a number. */
  datatype Option<+T> = None | Some(value: T) {
    function GetOr(default: T): T {
      match this
      case Some(v) => v
      case None => default
    }
  }

  /** A call that either returns a value or throws an `Error` carrying a message. */
  datatype Result<+T> = Success(value: T) | Failure(message: string)

  /** An `async` function with no useful return value: it completes or it throws. */
  datatype Outcome = Completed | Thrown(message: string)
}
