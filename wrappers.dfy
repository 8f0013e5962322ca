/** The optional value that Rust's `Option` stands for. */
module Wrappers {

  datatype Option<+T> = None | Some(value: T)
}
