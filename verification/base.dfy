/** Option and Result, the two shapes every fallible operation of the model returns. */
module Base {

  datatype Option<+T> = None | Some(value: T) {
    /** The value, or `default` when there is none (Rust `unwrap_or`). */
    function GetOr(default: T): T {
      match this
      case Some(v) => v
      case None => default
    }
  }

  datatype Result<+T, +E> = Ok(value: T) | Err(error: E) {
    /** Rust `unwrap_or_default`, given the default. */
    function OkOr(default: T): T {
      match this
      case Ok(v) => v
      case Err(_) => default
    }
  }
}
