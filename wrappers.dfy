/** Optional values and error-carrying results. */
module Wrappers {

  /** A value that may be absent: the nil interface a Go map read yields for a missing key. */
  datatype Option<+T> = None | Some(value: T)

  /** A Go `(value, error)` pair where exactly one side is meaningful. */
  datatype Result<+T> = Ok(value: T) | Err(error: string)
}
