/** The JavaScript `null` / `undefined` results of the engine, made explicit. */
module Wrappers {

  /** `None` stands for `null` or `undefined`; `Some(v)` for a defined value. */
  datatype Option<+T> = None | Some(value: T) {

    /** Returns the value, or a default when absent. */
    function GetOr(default: T): T {
      match this
      case Some(v) => v
      case None => default
    }
  }
}
