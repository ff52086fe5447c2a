/** Option and Result, the two wrappers the rest of the model returns. */
module Wrappers {

  datatype Option<+T> = None | Some(value: T) {
    /** The Python idiom `x if x is not None else default`. */
    function GetOr(default: T): T {
      match this
      case Some(v) => v
      case None => default
    }
  }

  /** The outcome of a call that either returns a value or raises an exception. */
  datatype Result<+T, +E> = Success(value: T) | Failure(error: E)
}
