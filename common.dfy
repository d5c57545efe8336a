/** Optional values and results shared by every module of the model. */
module Common {

  /** A value that may be absent (Python's `None`). */
  datatype Option<T> = None | Some(value: T)

  /** The outcome of a step that may raise: `Err` carries what was raised. */
  datatype Result<T, E> = Ok(value: T) | Err(error: E)
}
