/** Failure-carrying wrappers shared by every module of the model. */
module Wrappers {

  datatype Option<+T> = None | Some(value: T) {
    /** The wrapped value, or `default` when there is none (Swift's `??`). */
    function GetOr(default: T): T {
      match this
      case Some(v) => v
      case None => default
    }
  }

  /** A value-carrying outcome: what a Swift `async throws -> T` call returns. */
  datatype Result<+R, +E> = Success(value: R) | Failure(error: E)

  /** A value-less outcome: what a Swift `async throws` call with no result returns. */
  datatype Outcome<+E> = Pass | Fail(error: E)
}
