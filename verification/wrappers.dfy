/** The Option type used for every "may be absent" result of the player. */
module Wrappers {

  /** Rust's `Option<T>`: a value that may be missing. */
  datatype Option<+T> = None | Some(value: T)
}
