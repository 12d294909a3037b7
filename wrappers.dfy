/** Small wrapper datatypes shared by the other modules. */
module Wrappers {

  /** A value that may be absent (JavaScript's `undefined` / `null`). */
  datatype Option<+T> = None | Some(value: T) {
    function GetOr(default: T): T {
      match this
      case Some(v) => v
      case None => default
    }
  }

  /** Pass, or Fail carrying what went wrong. */
  datatype Outcome<+E> = Pass | Fail(error: E)
}
