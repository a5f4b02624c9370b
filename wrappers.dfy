/** Option and Result, the two wrappers the model uses for null references and thrown exceptions. */
module Wrappers {

  /** `None` stands for a null reference, `Some(v)` for a non-null one. */
  datatype Option<+T> = None | Some(value: T)

  /** `Failure(e)` stands for an exception `e` thrown by the call, `Success(v)` for a normal return of `v`. */
  datatype Result<+T, +E> = Success(value: T) | Failure(error: E)
}
