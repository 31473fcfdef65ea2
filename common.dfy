/** Failure-compatible wrappers shared by every module of the model. */
module Common {

  /** A value that may be absent: Python's None, or a missing dictionary key. */
  datatype Option<+T> = None | Some(value: T)

  /** The result of a step that may raise a Python exception instead of returning. */
  datatype Result<+T, +E> = Ok(value: T) | Err(error: E)
}
