/** Failure-carrying values shared by the ranker and the sampler. */
module Results {

  /** A value that may be missing, like JavaScript's `undefined` from `find`. */
  datatype Option<+T> = None | Some(value: T)

  /** A value, or the error that an `assert` in the source would have thrown. */
  datatype Result<+T, +E> = Success(value: T) | Failure(error: E)
}
