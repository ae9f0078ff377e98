/** Option and Result, the shapes of Rust's `Option` and of a fatal arm turned into a value. */
module Wrappers {

  /** Rust's `Option<T>`. */
  datatype Option<+T> = None | Some(value: T)

  /** A value, or the reason the source would have panicked instead of producing one. */
  datatype Result<+T, +E> = Success(value: T) | Failure(error: E)
}
