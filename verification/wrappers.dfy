/** Datatypes used throughout the model: an optional value, a value-or-error
    result, and a pass-or-error outcome for steps that produce no value
    (Rust's `Result<()>`). */
module Wrappers {

  datatype Option<+T> = None | Some(value: T)

  datatype Result<+T, +E> = Success(value: T) | Failure(error: E)

  datatype Outcome<+E> = Pass | Fail(error: E)
}
