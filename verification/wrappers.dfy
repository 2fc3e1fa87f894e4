/** Failure-compatible wrappers shared by the modules of this model: Python's
    `None` becomes `Option.None`, a raised exception becomes `Result.Err`. */
module Wrappers {

  datatype Option<+T> = None | Some(value: T)

  datatype Result<+T, +E> = Ok(value: T) | Err(error: E)
}
