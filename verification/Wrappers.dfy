/** Option, used wherever the source has `null`, `undefined`, `NaN` or a thrown error. */
module Wrappers {
  datatype Option<+T> = None | Some(value: T) {
    function GetOr(default: T): T {
      match this
      case Some(v) => v
      case None => default
    }
  }
}
