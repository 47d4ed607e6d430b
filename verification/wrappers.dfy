/** Optional values and the outcomes of remote calls. */
module Wrappers {

  /** An optional value: a TypeScript `T | undefined` (or `T | null`). */
  datatype Option<+T> = None | Some(value: T) {

    /** The value, or `default` when absent (TypeScript's `x || default` for strings). */
    function GetOr(default: T): T {
      match this
      case Some(v) => v
      case None => default
    }
  }

  /** A remote call that either resolved with a payload or failed with a message. */
  datatype Result<+R, +E> = Success(value: R) | Failure(error: E)

  /** A remote call or an action that either completed or failed with a message. */
  datatype Outcome<+E> = Pass | Fail(error: E)
}
