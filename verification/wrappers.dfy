/** Option and Result datatypes shared by the other modules. */
module Wrappers {

  /** A value that may be absent (a missing dictionary key, a `None`). */
  datatype Option<+T> = None | Some(value: T) {

    /** The wrapped value, or `default` when absent (Python's `dict.get(key, default)`). */
    function GetOr(default: T): (r: T)
      ensures Some? ==> r == value
      ensures None? ==> r == default
    {
      match this
      case Some(v) => v
      case None => default
    }
  }

  /** Either a value or the reason an operation could not produce one. */
  datatype Result<+R, +E> = Ok(value: R) | Err(error: E)
}
