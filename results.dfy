/** Outcomes of the schema descriptor's operations: a value, or the exception
    the Java code throws instead of returning one. */
module Results {

  /** The exceptions that the descriptor's operations raise. */
  datatype Error =
    | NoSuchElement         // java.util.NoSuchElementException, thrown by the descriptor itself
    | IndexOutOfBounds      // IndexOutOfBoundsException, thrown by List.get past the end
    | UnsupportedOperation  // UnsupportedOperationException, thrown by hashCode

  datatype Result<+R> = Ok(value: R) | Err(error: Error)

  /** A value that may be missing, such as the optional array of field names. */
  datatype Option<+T> = None | Some(value: T)
}
