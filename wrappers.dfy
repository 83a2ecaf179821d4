/** Option and Result, used for Python's `None` and for raised exceptions. */
module Wrappers {

  datatype Option<+T> = None | Some(value: T) {
    /** The wrapped value, or `default` for None (Python's `x or default`, `d.get(k, default)`). */
    function GetOr(default: T): T {
      if Some? then value else default
    }
  }

  /** `Err` carries the text of the exception the source would raise. */
  datatype Result<+T, +E> = Ok(value: T) | Err(error: E)
}
