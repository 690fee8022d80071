/** Rust's `Option<T>`, used for the optional fields and for partial results. */
module Options {

  datatype Option<+T> = None | Some(value: T)
}
