/** JavaScript's `undefined`-or-value, as used by optional chaining (`?.`) and `??`. */
module Options {

  datatype Option<+T> = None | Some(value: T) {

    /** `x ?? fallback`: the value when present, otherwise the fallback. */
    function GetOr(fallback: T): (r: T)
      ensures Some? ==> r == value
      ensures None? ==> r == fallback
    {
      match this
      case Some(v) => v
      case None => fallback
    }
  }
}
