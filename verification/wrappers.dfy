/** Failure-carrying datatypes shared by every module of the model. */
module Wrappers {

  /** Rust's `Option`: a value that may be absent (also a nullable pointer). */
  datatype Option<+T> = None | Some(value: T)

  /** Rust's `Result`: a value or an error. */
  datatype Result<+T, +E> = Ok(value: T) | Err(error: E)
}
