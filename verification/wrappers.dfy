/** Optional values, standing for the `undefined`-able props and fields of the source. */
module Wrappers {

  datatype Option<+T> = None | Some(value: T) {

    /** The value, or `default` when absent: JavaScript's `x ?? default`. */
    function GetOr(default: T): T {
      match this
      case Some(v) => v
      case None => default
    }

    /** `this ?? other`: the first present value. */
    function OrElse(other: Option<T>): Option<T> {
      if Some? then this else other
    }
  }
}
