/** Option and Result values shared by every module of the model. */
module Wrappers {
  /** Rust's `Option`; also the model of a `Result<_, ()>`. */
  datatype Option<T> = None | Some(value: T)

  /** Rust's `Result`. */
  datatype Result<T, E> = Ok(value: T) | Err(error: E)
}
