/** Option and Result, the two failure-carrying shapes the model uses. */
module Wrappers {

  datatype Option<+T> = None | Some(value: T)

  /** A computation that returned `value` or threw `error`. */
  datatype Result<+T, +E> = Success(value: T) | Failure(error: E)
}
