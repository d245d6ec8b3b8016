/** Result types shared by every part of the model. */
module Base {

  datatype Option<+T> = None | Some(value: T)

  /** A Python function that either returns a value or raises its module's error. */
  datatype Result<+T> = Ok(value: T) | Refused
}
