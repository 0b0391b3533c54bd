/** Failure-carrying results, used where the Python code raises an exception. */
module Results {

  datatype Option<T> = None | Some(value: T)

  /** The value a Python function returns, or the exception it raises. */
  datatype Result<T, E> = Success(value: T) | Failure(error: E)

  /** Completion of a Python procedure that returns None or raises. */
  datatype Outcome<E> = Pass | Fail(error: E)
}
