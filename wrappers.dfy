/** Option and Result: absent JavaScript values and the handler's error returns. */
module Wrappers {

  /** A value that may be missing (`undefined` or `null` in the source). */
  datatype Option<+T> = None | Some(value: T)

  /** Either a computed value or the reason the request was rejected. */
  datatype Result<+R, +E> = Ok(value: R) | Err(error: E)
}
