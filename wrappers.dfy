/** Option and Result values shared by every module of the model. A `Result` carries, on failure,
    the message of the `Error` the JavaScript code throws. */
module Wrappers {

  datatype Option<+T> = None | Some(value: T)

  datatype Result<+T> = Ok(value: T) | Err(message: string)
}
