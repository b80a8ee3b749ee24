/** Option and Result, the two failure-carrying shapes the model uses. */
module Wrappers {

  /** A value that may be absent (`T | null` or `T | undefined` in the source). */
  datatype Option<+T> = None | Some(value: T)

  /** The outcome of a call into the store: rows, or the store's error message. */
  datatype Result<+T> = Success(value: T) | Failure(error: string)
}
