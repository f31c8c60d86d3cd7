/** The optional value used for Python's `None`-or-value results. */
module Wrappers {
  datatype Option<T> = None | Some(value: T) {
    /** `value or default`. */
    function GetOr(default: T): (r: T)
      ensures Some? ==> r == value
      ensures None? ==> r == default
    {
      match this
      case Some(v) => v
      case None => default
    }
  }
}
