/** Failure-carrying values shared by the whole model. */
module Wrappers {

  /** A value that may be absent (Python's `None`, a missing key, a failed lookup). */
  datatype Option<+T> = None | Some(value: T) {
    function GetOr(default: T): T {
      match this
      case Some(v) => v
      case None => default
    }
  }

  /** The outcome of a Python call that either returns or raises an exception. */
  datatype Result<+T> = Ok(value: T) | Raised(error: string)
}
