/** Failure-carrying values, mirroring Rust's `Option` and `Result`. */
module Wrappers {

  datatype Option<+T> = None | Some(value: T)

  /** `Ok` carries the value of a successful call, `Err` the error it failed with. */
  datatype Result<+T, +E> = Ok(value: T) | Err(error: E)
}
