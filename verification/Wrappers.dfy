/** Outcome datatypes shared by every module of the model. */
module Wrappers {

  datatype Option<+T> = None | Some(value: T)

  datatype Result<+R, +E> = Success(value: R) | Failure(error: E)

  /** What a failed write is known to have left on the keyboard. */
  datatype Recovery = Verified | Failed | NotAttempted | Unverified
}
