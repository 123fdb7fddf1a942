/** Values that may be missing, and calls that may fail. */
module Wrappers {

  datatype Option<+T> = None | Some(value: T) {
    /** The value when there is one, `default` otherwise. */
    function GetOr(default: T): T {
      match this
      case Some(v) => v
      case None => default
    }
  }

  datatype Result<+T, +E> = Ok(value: T) | Err(error: E)
}
