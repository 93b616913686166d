/** Option and Result, the shapes the model gives to JavaScript's `null`/`undefined`
    and to operations that throw. */
module Wrappers {

  datatype Option<+T> = None | Some(value: T)

  /** `Err(message)` stands for a thrown `Error` carrying that message. */
  datatype Result<+T> = Ok(value: T) | Err(message: string)
}
