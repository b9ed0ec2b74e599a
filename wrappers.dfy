/** Optional values and success/failure results, as Kotlin's nullable types
    and `kotlin.Result` are used by the escalation worker and the platform client. */
module Wrappers {

  /** A value that may be absent (a Kotlin `T?`, or a missing JSON / work-data key). */
  datatype Option<+T> = None | Some(value: T) {

    /** The value, or `default` when absent (Kotlin's `?:`). */
    function GetOr(default: T): T {
      match this
      case Some(v) => v
      case None => default
    }
  }

  /** The outcome of a platform call (`kotlin.Result<T>`): a value or an error. */
  datatype Result<+T, +E> = Success(value: T) | Failure(error: E)
}
