/** The optional-value datatype used for configuration fields that Go leaves nil. */
module Wrappers {

  /** `None` stands for a nil field, `Some(v)` for a field that holds `v`. */
  datatype Option<+T> = None | Some(value: T) {

    /** The held value, or `default` when the field is nil. */
    function GetOr(default: T): (r: T)
      ensures Some? ==> r == value
      ensures None? ==> r == default
    {
      match this
      case Some(v) => v
      case None => default
    }
  }
}
