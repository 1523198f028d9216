/** Optional values: JavaScript's `undefined` / `null` where the code tests for them. */
module Wrappers {
  datatype Option<+T> = None | Some(value: T) {
    /** `x || fallback` for an optional value. */
    function GetOr(default: T): T {
      match this
      case Some(v) => v
      case None => default
    }
  }
}
