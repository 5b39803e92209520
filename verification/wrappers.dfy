/** Failure-compatible result types shared by the scorer and the training harness. */
module Wrappers {

  /** A value that may be absent; the harness uses `None` where the source holds
      `None` or an infinite sentinel. */
  datatype Option<+T> = None | Some(value: T)

  /** Either a computed value or the error that the source would raise instead. */
  datatype Result<+T, +E> = Success(value: T) | Failure(error: E)
}
