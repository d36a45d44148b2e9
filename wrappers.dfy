/** Option, the model's stand-in for Python's `None`-or-value and TypeScript's `undefined`-or-value. */
module Wrappers {

  datatype Option<+T> = None | Some(value: T) {

    /** The value inside Some, or the given default. */
    function GetOr(default: T): T {
      match this
      case Some(v) => v
      case None => default
    }
  }
}
