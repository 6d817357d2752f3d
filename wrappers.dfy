/** Option and Result, the failure-carrying values the rest of the model uses. */
module Wrappers {

  /** An optional value: the C# `null` reference or nullable string. */
  datatype Option<+T> = None | Some(value: T) {

    /** The wrapped value, or `default` when there is none (C#'s `??`). */
    function GetOr(default: T): T {
      match this
      case Some(v) => v
      case None => default
    }
  }

  /** A value or an error: used where the source throws. */
  datatype Result<+R, +E> = Success(value: R) | Failure(error: E)
}
