/** Shared datatypes used by the other modules. */
module Wrappers {

  /** An optional value; `None` stands for "not set yet". */
  datatype Option<+T> = None | Some(value: T)

  /** Either a value or an error, the shape of Go's `(T, error)` return pairs. */
  datatype Result<+T, +E> = Ok(value: T) | Err(error: E)
}
