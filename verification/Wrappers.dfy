/** Result types shared by the models. */
module Wrappers {
  datatype Option<+T> = None | Some(value: T)

  /** A returned value, or the exception the source throws. */
  datatype Result<+T, +E> = Ok(value: T) | Err(error: E)
}
