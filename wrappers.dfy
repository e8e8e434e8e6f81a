/** Option and Result, the two failure-carrying wrappers the model uses in
    place of Python's None and of an error response. */
module Wrappers {

  /** A value that may be absent (Python's None). */
  datatype Option<+T> = None | Some(value: T) {

    /** The value, or `default` when absent (Python's `d.get(k, default)`). */
    function GetOr(default: T): T {
      match this
      case Some(v) => v
      case None => default
    }
  }

  /** A success value or an error value. */
  datatype Result<+R, +E> = Ok(value: R) | Err(error: E)
}
