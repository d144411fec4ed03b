/** Small wrapper datatypes shared by every module of the model. */
module Common {

  /** Python's "value or None". */
  datatype Option<+T> = None | Some(value: T)

  /** A computation that either produced a value or raised an exception. */
  datatype Result<+T, +E> = Ok(value: T) | Err(error: E)
}
