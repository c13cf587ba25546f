/** Failure-carrying values shared by the other modules. */
module Common {

  /** Python's `Optional[T]`: `None` or a value. */
  datatype Option<+T> = None | Some(value: T)

  /** A call that either returns a value or raises a (caught) exception. */
  datatype Result<+T, +E> = Ok(value: T) | Err(error: E)
}
