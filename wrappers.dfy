/** Nullable values of the C# source (`string?`, reference types that may be null). */
module Wrappers {

  datatype Option<+T> = None | Some(value: T) {

    /** The C# null-coalescing operator `x ?? default`. */
    function GetOr(default: T): T {
      match this
      case Some(v) => v
      case None => default
    }
  }
}
