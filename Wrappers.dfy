/** Option and Result values shared by the modules of the autocollimator model.
    Option stands for a float that may be NaN (None) and for lookups that may miss;
    Result stands for an operation that raises an exception in the original program. */
module Wrappers {

  datatype Option<+T> = None | Some(value: T)

  datatype Result<+T, +E> = Ok(value: T) | Err(error: E)
}
