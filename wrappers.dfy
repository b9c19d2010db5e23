/** Option and Result values shared by the component models. */
module Wrappers {

  /** An optional value: Rust's `Option<T>`. */
  datatype Option<+T> = None | Some(value: T)

  /** The outcome of an operation that can fail: a value or an error. */
  datatype Result<+R, +E> = Success(value: R) | Failure(error: E)
}
