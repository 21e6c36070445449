/** Failure-carrying values shared by every module of the model. */
module Wrappers {

  /** A value that may be missing (Rust's `Option`, Python's `None`). */
  datatype Option<+T> = None | Some(value: T)

  /** A value or the error that replaced it (Rust's `Result`, a raised exception). */
  datatype Result<+T, +E> = Ok(value: T) | Err(error: E)
}
