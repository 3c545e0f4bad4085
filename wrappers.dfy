/** Option and Result values for the model's optional errors and fallible lookups. */
module Wrappers {

  datatype Option<+T> = None | Some(value: T)

  datatype Result<+T, +E> = Ok(value: T) | Fail(error: E)
}
