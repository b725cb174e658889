/** The optional value used across the model: a DOM lookup that may find nothing,
    an attribute that may be absent, a storage key that may be unset. */
module Wrappers {

  datatype Option<+T> = None | Some(value: T) {

    /** The value held, or `default` when there is none. */
    function GetOr(default: T): T {
      match this
      case Some(v) => v
      case None => default
    }
  }
}
