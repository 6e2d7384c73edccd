/** Failure-compatible wrappers used in place of Kotlin's nullable types and exceptions. */
module Wrappers {

  /** A Kotlin `T?`: `None` is `null`. */
  datatype Option<+T> = None | Some(value: T) {

    /** Kotlin's elvis operator `this ?: default`. */
    function GetOr(default: T): (r: T)
      ensures Some? ==> r == value
      ensures None? ==> r == default
    {
      match this
      case Some(v) => v
      case None => default
    }
  }

  /** The outcome of a call that returns a value or throws. */
  datatype Result<+R, +E> = Success(value: R) | Failure(error: E)
}

/** Raw bytes, as in Kotlin's `ByteArray` and okio's `ByteString`. */
module Bytes {
  newtype byte = x: int | 0 <= x < 256
}
