/** Small value types shared by every module. */
module Common {

  /** A value that may be absent: Rust's `Option`, Python's `None`. */
  datatype Option<+T> = None | Some(value: T) {
    function GetOr(default: T): T {
      match this
      case None => default
      case Some(v) => v
    }
  }

  /** The result of an operation the original reports through an error value or an exception. */
  datatype Result<+T, +E> = Ok(value: T) | Err(error: E)
}
