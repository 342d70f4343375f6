/** The Option type used for every value that may be absent: a missing
    dictionary key, a failed fetch, a NULL column. */
module Wrappers {

  datatype Option<+T> = None | Some(value: T) {

    /** The value when present, `default` otherwise (Python's `d.get(k, default)`). */
    function GetOr(default: T): T {
      match this
      case Some(v) => v
      case None => default
    }
  }
}
