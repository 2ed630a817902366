/** Option and Result, used for the converter's optional parameter map and
    for its all-or-nothing outcome. */
module Wrappers {

  datatype Option<+T> = None | Some(value: T)

  datatype Result<+T, +E> = Ok(value: T) | Err(error: E)
}
