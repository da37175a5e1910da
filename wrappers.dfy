/** Optional values (Python's `dict.get` returning `None`) and results that may carry an error. */
module Wrappers {

  datatype Option<T> = None | Some(value: T) {

    /** The value, or `default` when absent: `d.get(key, default)`. */
    function GetOr(default: T): T {
      match this
      case Some(v) => v
      case None => default
    }
  }

  /** A value, or the message of the `CuckooReportError` raised instead. */
  datatype Result<T> = Success(value: T) | Failure(error: string)
}
