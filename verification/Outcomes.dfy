/** Values that may be absent, and operations that may throw. */
module Outcomes {

  /** A field or lookup result that JavaScript would leave `undefined` or `null`. */
  datatype Option<+T> = None | Some(value: T) {
    function GetOr(default: T): T {
      match this
      case Some(v) => v
      case None => default
    }
  }

  /** A call that either returns or throws. */
  datatype Result<+T, +E> = Ok(value: T) | Err(error: E)
}
