/** The Option type used wherever the source has a value that may be absent
    (`null`, `undefined`, a missing `localStorage` entry, a `NaN` parse). */
module Wrappers {

  datatype Option<+T> = None | Some(value: T) {

    /** The value, or `default` when absent (JavaScript's `x || default` on a defined value). */
    function GetOr(default: T): T {
      match this
      case Some(v) => v
      case None => default
    }
  }
}
