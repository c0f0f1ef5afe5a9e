/** Failure-compatible wrappers used throughout the model: `Option` stands for
    JavaScript's `null`/`undefined`, `Result` for a promise that either
    resolves with a value or rejects with an error message. */
module Wrappers {

  datatype Option<+T> = None | Some(value: T) {

    /** The value, or `default` when absent. */
    function GetOr(default: T): T {
      match this
      case Some(v) => v
      case None => default
    }
  }

  datatype Result<+R, +E> = Success(value: R) | Failure(error: E)
}
