/** Optional values, standing for Python's `None` and for keys a dict may lack. */
module Wrappers {

  datatype Option<T> = None | Some(value: T) {
    /** The value, or `default` when absent: Python's `d.get(key, default)`. */
    function GetOr(default: T): T {
      if Some? then value else default
    }
  }
}
