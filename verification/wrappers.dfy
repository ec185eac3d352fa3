/** Kotlin's nullable references, as an explicit datatype. */
module Wrappers {

  /** `None` stands for a Kotlin `null`. */
  datatype Option<+T> = None | Some(value: T) {

    /** The elvis operator `x ?: default`. */
    function GetOr(default: T): (r: T)
      ensures Some? ==> r == value
      ensures None? ==> r == default
    {
      match this
      case Some(v) => v
      case None => default
    }
  }
}
