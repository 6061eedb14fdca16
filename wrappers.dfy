/** Option and Result, as Rust's `core::option::Option` and the macro's error returns. */
module Wrappers {

  datatype Option<+T> = None | Some(value: T)

  /** The outcome of a derivation: a value, or a compile error carrying its message. */
  datatype Result<+T> = Ok(value: T) | Err(error: string)
}
