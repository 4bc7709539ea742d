/** Option and Result values, used wherever the storefront returns null or throws. */
module Wrappers {

  datatype Option<+T> = None | Some(value: T)

  /** The outcome of an asynchronous call: a value, or the error object it rejects with. */
  datatype Result<+T, +E> = Success(value: T) | Failure(error: E)
}
