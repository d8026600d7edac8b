/** The optional value used throughout the model for JavaScript's `null` / `undefined`. */
module Wrappers {

  datatype Option<+T> = None | Some(value: T) {

    /** The value, or `default` when absent. */
    function GetOr(default: T): T {
      match this
      case Some(v) => v
      case None => default
    }
  }

  /** Absent, or present but empty: the two strings JavaScript treats as falsy. */
  predicate IsBlank(s: Option<string>) {
    s.None? || s.value == ""
  }
}
