/** Failure-carrying values shared by every module of the model. */
module Wrappers {

  datatype Option<T> = None | Some(value: T)

  /** A settled JavaScript promise: resolved with a value, or rejected with an
      Error whose message is kept. */
  datatype Result<T> = Ok(value: T) | Err(message: string)
}
