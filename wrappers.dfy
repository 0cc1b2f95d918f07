/** Option and Result, the two wrappers the client's Rust code returns everywhere. */
module Wrappers {

  datatype Option<+T> = None | Some(value: T)

  /** A Rust `Result<T, String>`: the client reports every error as a message. */
  datatype Result<+T> = Ok(value: T) | Err(error: string)
}
