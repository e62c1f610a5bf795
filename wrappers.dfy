/** Option and Result, used where the C# code returns null or throws. */
module Wrappers {

  datatype Option<+T> = None | Some(value: T) {
    /** The value, or `default` when absent (C#'s `??`). */
    function GetOr(default: T): T {
      match this
      case Some(v) => v
      case None => default
    }
  }

  /** The exceptions the modelled code throws. */
  datatype Error = InvalidOperation

  datatype Result<+T> = Success(value: T) | Failure(error: Error)
}
