/** Option and Result, the two failure-carrying shapes the request layer needs. */
module Wrappers {

  /** A value that may be missing. */
  datatype Option<+T> = None | Some(value: T)

  /** Either the value a request builder produced or the reason it refused. */
  datatype Result<+R, +E> = Success(value: R) | Failure(error: E)
}
