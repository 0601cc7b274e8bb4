/** Optional values, for JavaScript parameters and route values that may be `undefined`. */
module Wrappers {

  datatype Option<+T> = None | Some(value: T) {

    /** The value, or `default` when there is none: what a JavaScript default parameter does. */
    function GetOr(default: T): T {
      match this
      case Some(v) => v
      case None => default
    }
  }
}
