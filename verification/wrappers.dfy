/** Small failure-carrying datatypes shared by the rest of the model. */
module Wrappers {

  /** A value that may be missing; `None` also stands for a Python argument that is not a `str`. */
  datatype Option<+T> = None | Some(value: T)

  /** The outcome of a validator or mapper that either produces a value or explains why not. */
  datatype Result<+T, +E> = Success(value: T) | Failure(error: E)
}
