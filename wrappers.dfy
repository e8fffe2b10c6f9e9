/** Option and Result, the two tagged shapes the café quote uses for absent input and for validation failures. */
module Wrappers {

  /** A value that may be absent, as the host's prompt answer is when the user cancels. */
  datatype Option<+T> = None | Some(value: T)

  /** Either a computed value or the error that stopped the computation. */
  datatype Result<+R, +E> = Success(value: R) | Failure(error: E)
}
