/** Optional values and results: Python's None and raised exceptions, made explicit. */
module Wrappers {

  datatype Option<+T> = None | Some(value: T) {
    /** `os.getenv(KEY, default)` for a variable that is unset or set; this agrees with
        Python's `x or default` when `default` is "". */
    function GetOr(default: T): T {
      match this
      case Some(v) => v
      case None => default
    }
  }

  datatype Result<+R, +E> = Ok(value: R) | Err(error: E)
}
