/** Optional values, success-or-error results and pass-or-fail outcomes,
    standing in for JavaScript's `undefined`/`null`, thrown errors and
    `Promise<void>` results. */
module Wrappers {

  /** A value that may be missing (`undefined` or `null` in the source). */
  datatype Option<+T> = None | Some(value: T) {
    function GetOr(default: T): T {
      match this
      case Some(v) => v
      case None => default
    }
  }

  /** The value of a call that either returns or throws. */
  datatype Result<+R, +E> = Ok(value: R) | Err(error: E)

  /** The value of a call that returns nothing or throws. */
  datatype Outcome<+E> = Pass | Fail(error: E)
}
