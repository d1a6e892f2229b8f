/** Failure-carrying values shared by the curve and trajectory models.
    A Java exception thrown by the source becomes an `Err` naming it. */
module Results {

  datatype Option<+T> = None | Some(value: T)

  /** The run-time exceptions the modelled code can raise. */
  datatype Error =
    | NullDereference      // NullPointerException
    | IndexOutOfBounds     // ArrayIndexOutOfBoundsException
    | NegativeArraySize    // NegativeArraySizeException

  datatype Result<+T> = Ok(value: T) | Err(error: Error)
}
