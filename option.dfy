/** Rust's `Option`, and `anyhow::Result` with its error as a message. */
module Opt {
  datatype Option<T> = None | Some(value: T)

  datatype Result<T> = Ok(value: T) | Err(error: string)
}
