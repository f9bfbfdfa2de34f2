/** Option and Result, the failure-carrying values the model uses for
    Python's `None` and for raised `ValueError`s. */
module Wrappers {

  datatype Option<+T> = None | Some(value: T)

  datatype Result<+T, +E> = Ok(value: T) | Err(error: E)
}
