/** Rust's `Option<T>`, used both for the macro's own optional results and for builder slots. */
module Wrappers {

  datatype Option<+T> = None | Some(value: T)
}
