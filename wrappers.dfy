/** Option and Result datatypes shared by every module of the model. */
module Wrappers {

  datatype Option<+T> = None | Some(value: T)

  /** An operation that either produces a value or fails with a message
      (a thrown Error in the source). */
  datatype Result<+T> = Ok(value: T) | Err(message: string)

  /** The outcome of an awaited query: its value, or a thrown error. */
  datatype Attempt<+T> = Threw | Returned(value: T)
}
