/** Optional values, standing for JavaScript's `undefined`/`null` and for the
    `x || d` idiom that replaces a missing or falsy field by a default. */
module Wrappers {

  datatype Option<+T> = None | Some(value: T) {

    /** `x || d`: the carried value, or `d` when there is none. */
    function GetOr(d: T): (r: T)
      ensures Some? ==> r == value
      ensures None? ==> r == d
    {
      match this
      case Some(v) => v
      case None => d
    }
  }
}
