/** The two failure-carrying wrappers the rest of the model uses. */
module Options {

  /** A value that may be absent. */
  datatype Option<T> = None | Some(value: T)

  /** A value, or the error that a Python call raised instead. */
  datatype Result<T, E> = Success(value: T) | Failure(error: E)
}
