/** The two failure-carrying types used throughout the model. */
module Wrappers {
  /** A nil-able pointer of the source, without its address. */
  datatype Option<+T> = None | Some(value: T) {
    function GetOr(default: T): T {
      match this
      case Some(v) => v
      case None => default
    }
  }

  /** A Go result pair `(value, err)`. */
  datatype Result<+T, +E> = Ok(value: T) | Err(error: E)
}
