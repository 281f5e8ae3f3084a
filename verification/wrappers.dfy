/** Failure-carrying wrappers shared by the model: an optional value, a value-or-error
    result, and a pass-or-error outcome for operations that return nothing. */
module Wrappers {

  datatype Option<+T> = None | Some(value: T)

  datatype Result<+R, +E> = Success(value: R) | Failure(error: E)

  datatype Outcome<+E> = Pass | Fail(error: E)
}
