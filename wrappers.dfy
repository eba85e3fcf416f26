/** Option and Result values used for the source's None returns and raised exceptions. */
module Wrappers {

  datatype Option<+T> = None | Some(value: T)

  /** `Err` stands for a Python exception escaping the operation. */
  datatype Result<+T, +E> = Ok(value: T) | Err(error: E)
}
