/** Results that may be missing or may be an error. */
module Wrappers {
  datatype Option<+T> = None | Some(value: T)

  datatype Result<+T, +E> = Ok(result: T) | Err(error: E)
}
