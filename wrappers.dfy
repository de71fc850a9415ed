/** Optional values and fallible results, as used throughout the model for
    `undefined` options and for thrown errors or rejected promises. */
module Wrappers {

  datatype Option<+T> = None | Some(value: T) {

    /** The value, or `default` when absent (the source's `x ?? default`). */
    function GetOr(default: T): T {
      match this
      case Some(v) => v
      case None => default
    }
  }

  /** A value or the message of the error that was thrown instead. */
  datatype Result<+T> = Success(value: T) | Failure(error: string)
}
