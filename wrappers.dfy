/** Failure-compatible wrappers used across the model: an optional value (the
    source's `undefined` / `null`) and a fallible value (the source's `throw`). */
module Wrappers {

  datatype Option<+T> = None | Some(value: T) {
    function GetOr(default: T): T {
      match this
      case Some(v) => v
      case None => default
    }
  }

  datatype Outcome<+T> = Ok(value: T) | Fail(error: string)
}
