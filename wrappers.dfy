/** Nullable values of the source, written as an explicit option. */
module Wrappers {

  /** `None` stands for a C# `null`. */
  datatype Option<+T> = None | Some(value: T) {

    /** The value, or `default` when there is none. */
    function GetOr(default: T): T {
      match this
      case Some(v) => v
      case None => default
    }
  }

  /** A computation that either succeeds or fails with an error value. */
  datatype Result<+R, +E> = Success(value: R) | Failure(error: E)
}
