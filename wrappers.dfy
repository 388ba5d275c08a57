/** Optional values and the outcome of a remote call. */
module Wrappers {

  datatype Option<+T> = None | Some(value: T)

  /** The outcome of a call into the remote service: a value, or the message of the error it threw. */
  datatype Result<+T> = Ok(value: T) | Err(message: string)
}
