/** Option and Result values standing in for JavaScript's `undefined` and for
    the error paths of the portfolio server. */
module Wrappers {

  /** An optional value: `None` is an absent (undefined or null) field. */
  datatype Option<+T> = None | Some(value: T) {

    /** The value, or `default` when absent (the `x ?? default` idiom). */
    function GetOr(default: T): T {
      match this
      case Some(v) => v
      case None => default
    }
  }

  /** The outcome of an operation that may be rejected. */
  datatype Result<+R, +E> = Success(value: R) | Failure(error: E)
}
