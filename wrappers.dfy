/** Option type used for the source's `None` values and optional dictionary keys. */
module Wrappers {

  datatype Option<+T> = None | Some(value: T) {

    /** Python's `x or default` on an optional string, `dict.get(key, default)` on a key. */
    function GetOr(default: T): T {
      match this
      case Some(v) => v
      case None => default
    }
  }
}
