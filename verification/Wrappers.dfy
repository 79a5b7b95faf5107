/** Results and options shared by every module. */
module Wrappers {

  datatype Option<+T> = None | Some(value: T)

  /** A raised exception is a `Failure`; everything the call did before it is in the state. */
  datatype Result<+T, +E> = Success(value: T) | Failure(error: E)
}
