/** Option and Result values for the source's `null`/`undefined` returns and Rust `Result`s. */
module Wrappers {

  datatype Option<+T> = None | Some(value: T)

  datatype Result<+R, +E> = Ok(value: R) | Err(error: E)

  datatype Unit = Unit
}
