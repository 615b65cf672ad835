/** Failure-compatible wrappers shared by the other modules. */
module Results {

  /** An optional value: `None` stands for Python's `None` or for an absent slot. */
  datatype Option<+T> = None | Some(value: T)

  /** The outcome of an operation that raises on failure in the source. */
  datatype Result<+T, +E> = Success(value: T) | Failure(error: E)
}
