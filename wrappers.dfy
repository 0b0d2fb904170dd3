/** Small option and result types shared by every module of the model. */
module Wrappers {

  /** A value that may be absent: JavaScript's `undefined`/`null` where the source uses them. */
  datatype Option<+T> = None | Some(value: T)

  /** A value, or the message of the exception computing it threw. */
  datatype Result<+T> = Ok(value: T) | Err(error: string)
}
