/** Option, Result and Outcome: the "not found", "value or error" and
    "pass or fail" signals of the model, in place of None and exceptions. */
module Wrappers {

  datatype Option<+T> = None | Some(value: T)

  datatype Result<+T, +E> = Ok(value: T) | Err(error: E)

  datatype Outcome<+E> = Pass | Fail(error: E)
}
