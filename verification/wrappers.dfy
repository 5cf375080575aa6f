/** Failure-carrying values shared by the rest of the model.
    A `Failure` stands for a Python exception that escapes the operation. */
module Wrappers {

  datatype Option<+T> = None | Some(value: T)

  datatype Result<+R, +E> = Success(value: R) | Failure(error: E)
}
