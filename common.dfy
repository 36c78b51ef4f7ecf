/** Option and Result wrappers shared by every module of the model. */
module Common {

  /** `undefined`/`null` versus a present value. */
  datatype Option<+T> = None | Some(value: T)

  /** A settled computation: a value, or the error it threw or rejected with. */
  datatype Result<+T, +E> = Ok(value: T) | Err(error: E)
}
