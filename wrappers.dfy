/** Option and Result, the two failure-carrying values the model returns. */
module Wrappers {

  datatype Option<+T> = None | Some(value: T)

  /** A caller-facing outcome: the value, or the error the HTTP layer would report. */
  datatype Result<+T, +E> = Success(value: T) | Failure(error: E)
}
