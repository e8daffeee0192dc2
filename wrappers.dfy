/** Option and Result, the failure-carrying values every operation of the model returns. */
module Wrappers {

  datatype Option<+T> = None | Some(value: T) {
    /** `unwrap_or`: the value, or `default` when there is none. */
    function GetOr(default: T): T {
      match this
      case Some(v) => v
      case None => default
    }
  }

  /** A call either completes with a value or aborts (a Rust panic) with an error. */
  datatype Result<+T, +E> = Success(value: T) | Failure(error: E)
}
