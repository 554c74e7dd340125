/** Failure-compatible helper datatypes shared by every module of the model. */
module Wrappers {

  /** An optional value: `None` stands for Go's nil pointer, nil interface or zero value. */
  datatype Option<+T> = None | Some(value: T)

  /** A value or an error, for the Go pair `(T, error)` where exactly one side is meaningful. */
  datatype Result<+T, +E> = Success(value: T) | Failure(error: E)
}
