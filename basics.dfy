/** Small value types shared by every screen model. */
module Basics {

  /** An optional value: JavaScript's `undefined` for a missing field becomes `None`. */
  datatype Option<+T> = None | Some(value: T)
  {
    /** JavaScript's `value || fallback` for a string-valued option. */
    function GetOr(fallback: T): T
    {
      match this
      case Some(v) => v
      case None => fallback
    }
  }
}
