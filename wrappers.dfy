/** Option and Result: nullable values, and the outcome of code that can
    throw one of the plugin's exceptions. */
module Wrappers {

  datatype Option<+T> = None | Some(value: T)

  datatype Result<+T, +E> = Success(value: T) | Failure(error: E)
}
