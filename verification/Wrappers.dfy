/** The option and result datatypes shared by every model. */
module Wrappers {
  /** A value that may be missing: the source's nil pointer or false flag. */
  datatype Option<+T> = None | Some(value: T)

  /** A value or an error return. */
  datatype Result<+T, +E> = Ok(value: T) | Err(error: E)
}
