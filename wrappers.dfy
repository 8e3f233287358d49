/** Option and Result: the model's stand-ins for `undefined` results and thrown errors. */
module Wrappers {

  /** A value that may be absent, as a JavaScript `undefined` result. */
  datatype Option<+T> = None | Some(value: T)

  /** Either a value or the error that was thrown instead of producing it. */
  datatype Result<+R, +E> = Success(value: R) | Failure(error: E)
}
