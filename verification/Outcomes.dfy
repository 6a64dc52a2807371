/** Option and Result shapes shared by the models: a missing value, and an operation the source may refuse. */
module Outcomes {

  datatype Option<+T> = None | Some(value: T)

  datatype Result<+T, +E> = Ok(value: T) | Err(error: E)
}
