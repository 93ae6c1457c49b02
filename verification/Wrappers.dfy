/** The two failure-carrying datatypes the other modules share. */
module Wrappers {

  /** A value that may be absent: `None` in the modelled code. */
  datatype Option<+T> = None | Some(value: T)

  /** A returned value or a raised error. */
  datatype Result<+R, +E> = Ok(value: R) | Err(error: E)
}
