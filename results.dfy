/** The managed exceptions the wrappers throw, as values: a call either
    produces its value or fails with the exception it would have raised. */
module Results {

  datatype Result<+T, +E> = Ok(value: T) | Err(error: E)
}
