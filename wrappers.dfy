/** The optional value used where pandas answers with NaN or raises on an empty column. */
module Wrappers {

  datatype Option<+T> = None | Some(value: T) {

    /** The value, or the given default for None (pandas `fillna`). */
    function GetOr(default: T): T {
      match this
      case Some(v) => v
      case None => default
    }
  }
}
