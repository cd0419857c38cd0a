/** Optional values and fallible results, shared by the other modules. */
module Wrappers {

  /** An optional value: a JavaScript `undefined`/`null` or a Rust `Option`. */
  datatype Option<+T> = None | Some(value: T)

  /** A Rust `Result` or a settled JavaScript promise. */
  datatype Result<+T, +E> = Ok(value: T) | Err(error: E)
}
