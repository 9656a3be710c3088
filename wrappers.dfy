/** Option and Result, the failure-compatible wrappers used by every module. */
module Wrappers {

  /** A value that may be missing: a dictionary key that is absent, or a
      pandas cell holding NaN. */
  datatype Option<+T> = None | Some(value: T) {
    /** The value, or `default` when missing (Python's `dict.get(k, default)`
        and pandas' `fillna(default)`). */
    function GetOr(default: T): T {
      match this
      case Some(v) => v
      case None => default
    }
  }

  /** The outcome of an operation that may raise. */
  datatype Result<+R, +E> = Success(value: R) | Failure(error: E) {
    predicate IsFailure() {
      Failure?
    }

    function PropagateFailure<U>(): Result<U, E>
      requires Failure?
    {
      Failure(error)
    }

    function Extract(): R
      requires Success?
    {
      value
    }
  }
}
