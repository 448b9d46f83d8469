/** Optional values and success-or-error results, used wherever the application
    reads a possibly missing field or reports an error instead of a value. */
module Wrappers {

  /** A value that may be absent: a missing JSON field, a null state variable,
      a header or query parameter that was not sent. */
  datatype Option<+T> = None | Some(value: T) {

    /** The carried value, or `default` when there is none (the `x || d`
        idiom of the application when `x` is an object). */
    function GetOr(default: T): T {
      match this
      case Some(v) => v
      case None => default
    }
  }

  /** The outcome of an operation that may throw: the value it returns, or the
      message of the error it throws. */
  datatype Result<+R, +E> = Success(value: R) | Failure(error: E) {

    predicate IsFailure() {
      Failure?
    }
  }
}
