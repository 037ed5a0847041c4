/** Failure-compatible wrappers shared by the mapping hooks. */
module Wrappers {

  /** A value that may be missing. */
  datatype Option<+T> = None | Some(value: T) {
    /** The wrapped value, or `default` when there is none. */
    function GetOr(default: T): T {
      match this
      case Some(v) => v
      case None => default
    }
  }

  /** The outcome of a hook: the transformed value, or the exception the
      Python code would raise. */
  datatype Result<+T, +E> = Success(value: T) | Failure(error: E) {
    /** True if is Failure */
    predicate IsFailure() {
      Failure?
    }

    /** The same failure, at another value type. */
    function PropagateFailure<U>(): Result<U, E>
      requires Failure?
    {
      Failure(error)
    }

    /** The value of a success. */
    function Extract(): T
      requires Success?
    {
      value
    }
  }
}
