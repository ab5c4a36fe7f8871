/** Optional values and success/failure outcomes, standing in for C# null
    references and thrown exceptions. */
module Results {

  /** A reference that may be null. */
  datatype Option<T> = None | Some(value: T)

  /** The outcome of a call that returns nothing but may throw. */
  datatype Outcome<E> = Pass | Fail(error: E)

  /** The outcome of a call that returns a value or throws. */
  datatype Result<T, E> = Success(value: T) | Failure(error: E)
}
