/** Option and Result, the failure-carrying datatypes used across the model. */
module Wrappers {

  /** A value that may be absent (Go's "value, ok" pairs and nil results). */
  datatype Option<+T> = None | Some(value: T) {

    /** The carried value, or `default` when there is none. */
    function GetOr(default: T): T {
      match this
      case Some(v) => v
      case None => default
    }
  }

  /** A value or an error (Go's "value, err" pairs). */
  datatype Result<+R, +E> = Success(value: R) | Failure(error: E)
}
