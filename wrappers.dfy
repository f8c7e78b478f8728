/** Optional values: the model's stand-in for `undefined`, for a file that could not be
    read or parsed, and for a foreign call that threw. */
module Wrappers {
  datatype Option<+T> = None | Some(value: T) {
    function GetOr(default: T): T {
      match this
      case Some(v) => v
      case None => default
    }
  }
}
