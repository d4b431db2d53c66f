/** Option and Result, the two failure-carrying shapes the model uses. */
module Wrappers {

  datatype Option<+T> = None | Some(value: T)

  /** `Ok` is a normal return, `Err` a thrown `Error` with its message. */
  datatype Result<+T, +E> = Ok(value: T) | Err(error: E)
}
