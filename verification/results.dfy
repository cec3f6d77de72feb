/** Failure-carrying wrappers shared by the server model. */
module Results {

  /** A value that may be absent, such as an optional response header. */
  datatype Option<+T> = None | Some(value: T)

  /** The outcome of a fallible step: a value, or the kind of failure that ended it. */
  datatype Result<+T, +E> = Success(value: T) | Failure(error: E)
}
