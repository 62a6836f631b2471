/** Optional values, standing for JavaScript's `undefined`/`null` and
    Python's `None` or a missing dictionary key. */
module Wrappers {

  datatype Option<+T> = None | Some(value: T) {

    /** The value, or `default` when absent (the `??` and `.get(k, d)` idiom). */
    function GetOr(default: T): T {
      match this
      case Some(v) => v
      case None => default
    }
  }
}
