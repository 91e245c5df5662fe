/** Optional values and results with an error, for the values the dialog may lack
    and the ValueErrors it raises. */
module Wrappers {
  datatype Option<+T> = None | Some(value: T)

  datatype Result<+T, +E> = Ok(value: T) | Err(error: E)
}
