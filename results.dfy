/** Optional values and typed error results shared by both server variants. */
module Results {

  /** A value that may be absent, as Python's `None`. */
  datatype Option<+T> = None | Some(value: T)

  /** The outcome of an endpoint: a response, or the error it is rejected with. */
  datatype Result<+T, +E> = Success(value: T) | Failure(error: E)
}
