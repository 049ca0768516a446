/** Optional values and pass/fail outcomes, used for Go's nil-able values and `error` returns. */
module Wrappers {

  /** A value that may be missing: Go's nil map, nil slice or nil pointer. */
  datatype Option<+T> = None | Some(value: T) {

    /** The carried value, or `default` when there is none. */
    function GetOr(default: T): T {
      match this
      case Some(v) => v
      case None => default
    }
  }

  /** The result of an operation that returns only an `error`: nil (Pass) or an error value (Fail). */
  datatype Outcome<+E> = Pass | Fail(error: E)
}
