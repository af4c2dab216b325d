/** The result of a check that can fail. */
module Results {
  datatype Result<+T, +E> = Success(value: T) | Failure(error: E)
}
