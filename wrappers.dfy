/** Option and Result, the two failure-carrying datatypes the model uses in place of
    Python's None and Python's exceptions. */
module Wrappers {

  datatype Option<+T> = None | Some(value: T)

  datatype Result<+T, +E> = Success(value: T) | Failure(error: E)
}
