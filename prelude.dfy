/** Value types shared by the crates: Rust's `Option`, `Result` and `i32`. */
module Prelude {

  /** Rust's `Option<T>`. */
  datatype Option<T> = None | Some(value: T)

  /** Rust's `Result<T, E>`. */
  datatype Result<T, E> = Ok(value: T) | Err(error: E)

  /** Rust's `i32`, the type of a user id. */
  newtype i32 = x: int | -0x8000_0000 <= x < 0x8000_0000
}
