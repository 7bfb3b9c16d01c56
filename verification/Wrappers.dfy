/** The optional value used wherever the program stores `undefined` or `null`. */
module Wrappers {
  datatype Option<+T> = None | Some(value: T)

  /** The program's thrown errors, as a value. */
  datatype Result<+T, +E> = Ok(value: T) | Err(error: E)
}
