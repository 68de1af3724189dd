/** The outcome of an operation that the C++ code may abort by throwing. */
module Results {

  datatype Result<+T, +E> = Ok(value: T) | Err(error: E)
}
