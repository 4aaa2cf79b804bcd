/** Optional values and pass/fail outcomes, used for Python's `None` results
    and for exceptions that escape a call. */
module Wrappers {

  datatype Option<+T> = None | Some(value: T) {
    function GetOr(default: T): T {
      match this
      case Some(v) => v
      case None => default
    }
  }

  /** The outcome of a call that returns nothing: it either returns or raises `error`. */
  datatype Outcome<+E> = Pass | Fail(error: E)

  /** The outcome of a call that returns a value or raises `error`. */
  datatype Result<+R, +E> = Ok(value: R) | Err(error: E)
}
