/** Rust's `Option` and `Result`, as the entity code uses them. */
module Wrappers {

  /** An optional value: the physics slot of an entity. */
  datatype Option<+T> = None | Some(value: T)

  /** The outcome of an operation that can fail with an error of type `E`. */
  datatype Result<+T, +E> = Ok(value: T) | Err(error: E)
}
