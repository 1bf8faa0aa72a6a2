/** Option and Result, the two failure-carrying types the server's Rust code uses
    (`Option<T>` and `Result<T, String>`). */
module Wrappers {

  datatype Option<+T> = None | Some(value: T) {

    /** The contained value, or `default` when there is none (Rust's `unwrap_or`). */
    function GetOr(default: T): T {
      match this
      case Some(v) => v
      case None => default
    }
  }

  /** A result whose error is a message, as every fallible function of the server returns. */
  datatype Result<+T> = Ok(value: T) | Err(error: string)
}
