// Result and option values shared by every module of the model.
module Wrappers {
  datatype Option<+T> = None | Some(value: T)

  // A service call either returns a value or raises; `error` names the exception.
  datatype Result<+T, +E> = Ok(value: T) | Err(error: E)
}
