/** The two standard wrappers the board spaces are built on. */
module Wrappers {

  /** Rust's `Option<T>`: the content of a space, absent or present. */
  datatype Option<+T> = None | Some(value: T)

  /** Rust's `Result<T, E>`: a value or the error that replaced it. */
  datatype Result<+T, +E> = Ok(value: T) | Err(error: E)
}
