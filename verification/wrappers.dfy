/** Shared result shapes for calls that the source ends by throwing or by returning `undefined`. */
module Wrappers {

  datatype Option<+T> = None | Some(value: T)

  datatype Result<+T, +E> = Ok(value: T) | Err(error: E)
}
