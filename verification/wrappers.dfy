/** Rust's `Option` and `Result`, as plain datatypes. */
module Wrappers {

  datatype Option<+T> = None | Some(value: T)

  datatype Result<+T, +E> = Ok(value: T) | Err(error: E)

  /** Rust's unit type `()`. */
  datatype Unit = Unit
}
