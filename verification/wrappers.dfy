/** Failure-carrying result types used across the model: `Option` for the
    deck's "no card left" signal and `Result` for operations that raise in
    the original program. */
module Wrappers {

  /** A value that may be absent (the original returns `None`). */
  datatype Option<+T> = None | Some(value: T)

  /** Either a value or the error the original program would raise. */
  datatype Result<+T, +E> = Success(value: T) | Failure(error: E)
}
