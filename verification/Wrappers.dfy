/** The result types shared by the other modules. */
module Wrappers {

  /** A value that may be absent: Python's `None`. */
  datatype Option<+T> = None | Some(value: T)

  /** A computed value or the exception that stopped it. */
  datatype Result<+T, +E> = Ok(value: T) | Err(error: E)
}
