/** The two failure types the other modules share: Rust's Option, and Result with its message dropped. */
module Wrappers {
  datatype Option<+T> = None | Some(value: T)

  datatype Result<+T> = Ok(value: T) | Err
}
