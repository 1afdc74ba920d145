/** Option and Result values standing in for Kotlin's nullable types and for
    the exceptions the database or a foreign library may raise. */
module Wrappers {

  /** A nullable value: `None` is Kotlin's `null`. */
  datatype Option<+T> = None | Some(value: T) {
    /** The value, or `default` when absent (Kotlin's `?:`). */
    function GetOr(default: T): T {
      match this
      case Some(v) => v
      case None => default
    }
  }

  /** The outcome of a call that may raise: `Fail` carries the failure's detail. */
  datatype Result<+T> = Ok(value: T) | Fail(detail: string)
}
