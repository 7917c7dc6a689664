/** Optional values and the outcome of a call that may raise. */
module Wrappers {

  datatype Option<+T> = None | Some(value: T)

  /** `Err(msg)` stands for a raised exception; `msg` is what `str(e)` gives. */
  datatype Result<+T> = Ok(value: T) | Err(msg: string)
}
