/** Option and Result, the failure-carrying values used throughout the model. */
module Wrappers {

  /** Swift's `T?`, TypeScript's `T | null | undefined`. */
  datatype Option<+T> = None | Some(value: T) {
    function GetOr(default: T): T {
      match this
      case Some(v) => v
      case None => default
    }
  }

  /** A call that either returns a value or throws an error. */
  datatype Result<+T, +E> = Success(value: T) | Failure(error: E)

  /** The result of a call that returns nothing (`Void`) or throws. */
  datatype Unit = Unit
}
