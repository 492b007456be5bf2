/** Optional values and success/failure outcomes, shared by every module of the model. */
module Results {

  /** A value that may be absent, such as Python's `None` or a missing form field. */
  datatype Option<+T> = None | Some(value: T)

  /** The outcome of a step that either yields a value or raises an error. */
  datatype Result<+T, +E> = Ok(value: T) | Err(error: E)
}
