/** Failure-carrying return values that stand in for the C++ exceptions of the
    modelled code: an operation that throws returns the error instead. */
module Wrappers {

  datatype Option<+T> = None | Some(value: T)

  datatype Result<+R, +E> = Success(value: R) | Failure(error: E)

  datatype Outcome<+E> = Pass | Fail(error: E)
}
