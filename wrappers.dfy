/** Optional values, as Python's `None`-or-value. */
module Wrappers {

  datatype Option<T> = None | Some(value: T) {

    /** The value if present, otherwise `default`. */
    function GetOr(default: T): T {
      if Some? then value else default
    }
  }
}
