/** Failure-compatible wrappers shared by every module of the model. */
module Wrappers {

  /** A value that may be absent: `undefined`/`null` in the TypeScript code. */
  datatype Option<+T> = None | Some(value: T) {

    /** The wrapped value, or `default` when there is none (the `??` operator). */
    function GetOr(default: T): T {
      match this
      case Some(v) => v
      case None => default
    }
  }

  /** Either a value or an error. */
  datatype Result<+R, +E> = Success(value: R) | Failure(error: E)
}
