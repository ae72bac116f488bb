/** Option, Result and Outcome: the model's stand-ins for Rust's `Option`, and for
    the panics of the core, which the model returns as error values instead. */
module Wrappers {

  datatype Option<+T> = None | Some(value: T)

  datatype Result<+T, +E> = Ok(value: T) | Err(error: E)

  datatype Outcome<+E> = Pass | Fail(error: E)
}
