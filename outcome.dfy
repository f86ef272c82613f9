/** Optional values and error-carrying results shared by every module.
    An `Err` carries the message text the instrument GUIs raise or show. */
module Outcome {
  datatype Option<T> = None | Some(value: T)

  datatype Result<T> = Ok(value: T) | Err(msg: string)
  {
    predicate IsOk() { this.Ok? }
  }
}
