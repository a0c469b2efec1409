/** Option and Result, the two failure-carrying shapes the wallet's Rust code returns. */
module Wrappers {

  /** Rust's `Option<T>`. */
  datatype Option<+T> = None | Some(value: T)

  /** Rust's `Result<T, E>`: `Ok(value)` is `Success`, `Err(error)` is `Failure`. */
  datatype Result<+T, +E> = Success(value: T) | Failure(error: E)
}
