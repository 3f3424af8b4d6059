/** The optional value used for the TypeScript `T | null` and `T | undefined` shapes. */
module Wrappers {

  datatype Option<+T> = None | Some(value: T) {

    /** `x ?? d` / `x || d` for a non-falsy payload. */
    function GetOr(default: T): T {
      match this
      case Some(v) => v
      case None => default
    }
  }
}
