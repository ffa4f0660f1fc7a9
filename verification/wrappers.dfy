/** The optional value used throughout the model for JavaScript's `null`/`undefined`. */
module Wrappers {

  /**
   * `None` stands for both `null` and `undefined`, which `??`, `?.` and truthiness
   * treat alike.
   */
  datatype Option<+T> = None | Some(value: T) {

    /** The value, or `default` when absent: JavaScript's `x ?? default`. */
    function GetOr(default: T): (r: T)
      ensures Some? ==> r == value
      ensures None? ==> r == default
    {
      match this
      case Some(v) => v
      case None => default
    }
  }
}
