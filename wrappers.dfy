/** Failure-compatible wrappers shared by the model. */
module Wrappers {

  datatype Option<+T> = None | Some(value: T)

  /** The outcome of an operation that the source may abort by throwing. */
  datatype Result<+T> = Success(value: T) | Failure(error: string)
}
