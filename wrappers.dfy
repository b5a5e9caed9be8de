/** Option and Result, the two failure-carrying types the rest of the model uses
    in place of Rust's `Option<T>` and `Result<T, E>`. */
module Wrappers {

  datatype Option<+T> = None | Some(value: T)

  datatype Result<+T, +E> = Ok(value: T) | Err(error: E)

  /** The unit value `()` of `Result<(), E>`. */
  datatype Unit = Unit
}
