/** Failure-carrying values shared by every module of the model. */
module Results {

  /** An optional value; `None` stands for JavaScript's NaN where a script reads past an empty list. */
  datatype Option<+T> = None | Some(value: T)

  /** The outcome of an operation that may raise: `Failure` carries the exception. */
  datatype Result<+T, +E> = Success(value: T) | Failure(error: E)
}
