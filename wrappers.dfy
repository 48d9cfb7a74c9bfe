/** Option and Result: absent values and raised errors, written out as data. */
module Wrappers {

  /** A value that may be missing (Python `None`, JavaScript `undefined`). */
  datatype Option<+T> = None | Some(value: T) {
    /** The value, or `default` when there is none. */
    function GetOr(default: T): T {
      match this
      case Some(v) => v
      case None => default
    }
  }

  /** Either a value or the error that was raised instead. */
  datatype Result<+T, +E> = Success(value: T) | Failure(error: E)
}
