/** Small wrapper types shared by the whole model. */
module Base {

  /** A value that may be absent (Python's `None`). */
  datatype Option<T> = None | Some(value: T)

  /** The result of a step that either yields a value or raises a Python
      exception that the gateway does not catch.  The exception is named by
      its class, for instance "TypeError". */
  datatype Result<T> = Ok(value: T) | Raised(exception: string)
}
