/** Failure-carrying wrappers shared by every module of the model. */
module Common {

  /** A value that may be absent: Python's `Optional[T]`, `None` included. */
  datatype Option<T> = None | Some(value: T)

  /** The outcome of an operation that either returns a value or raises. */
  datatype Result<T, E> = Ok(value: T) | Err(error: E)

  /** Python truthiness of a string: only the empty string is falsy. */
  predicate Truthy(s: string) {
    s != ""
  }
}
