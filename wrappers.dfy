/** Optional values: JavaScript's `null`/`undefined` and TypeScript's optional properties. */
module Wrappers {
  datatype Option<+T> = None | Some(value: T) {
    /** `x ?? d`: the value when present, the default otherwise. */
    function GetOr(default: T): T {
      match this
      case Some(v) => v
      case None => default
    }
  }
}
