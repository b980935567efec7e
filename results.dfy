/** Failure-carrying wrappers shared by the model. An `Err` or `Fail` carries
    the text of the Python exception that was raised (`str(e)`). */
module Results {

  datatype Option<T> = None | Some(value: T)

  /** A value, or the message of the exception raised while computing it. */
  datatype Result<T> = Ok(value: T) | Err(message: string)

  /** A call that returns nothing useful: it either completes or raises. */
  datatype Outcome = Pass | Fail(message: string)
}
