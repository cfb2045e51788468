/** The error-or-value type the model uses wherever the script raises an exception. */
module Results {

  /** Either the value an operation produced or the error it raised. */
  datatype Result<+T, +E> = Success(value: T) | Failure(error: E)
}
