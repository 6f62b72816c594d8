/** Failure-carrying datatypes shared by the rest of the model. */
module Wrappers {

  /** A value that may be absent: a session key that is not set, a button that was not pressed. */
  datatype Option<+T> = None | Some(value: T)

  /** The outcome of an operation that can fail, such as loading the ledger. */
  datatype Result<+T, +E> = Success(value: T) | Failure(error: E)
}
