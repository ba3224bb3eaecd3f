/** Results of operations that the gateway reports as a value or as a raised error. */
module Outcomes {

  datatype Option<+T> = None | Some(value: T)

  /** The gateway raises Python exceptions; an operation here returns `Err` with the kind raised. */
  datatype Result<+T, +E> = Ok(value: T) | Err(error: E)
}
