/** Failure-compatible wrapper types shared by the whole model. */
module Wrappers {

  /** A value that may be missing: Python's `None`, or a SQL NULL. */
  datatype Option<+T> = None | Some(value: T) {

    /** The carried value, or `default` when there is none (`dict.get(key, default)`). */
    function GetOr(default: T): T {
      match this
      case Some(v) => v
      case None => default
    }
  }

  /** The outcome of an operation that may raise: `Failure` carries the exception's message. */
  datatype Result<+R> = Success(value: R) | Failure(error: string)
}
