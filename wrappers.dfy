/** Optional values and fallible results, used for the nullable parts of a
    slot descriptor and for the validator's error return. */
module Wrappers {

  /** A value that may be absent (a nil pointer in the wire message). */
  datatype Option<+T> = None | Some(value: T) {

    /** The wrapped value, or `default` when absent. */
    function GetOr(default: T): T {
      match this
      case Some(v) => v
      case None => default
    }
  }

  /** Either a value or an error. */
  datatype Result<+T, +E> = Ok(value: T) | Err(error: E)
}
