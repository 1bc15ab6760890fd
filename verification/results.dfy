/** Success/failure values returned by the contracts' operations: a reverted
    call becomes an error value, and the caller's state is left as it was. */
module Results {

  datatype Result<+T, +E> = Ok(value: T) | Err(error: E) {

    /** The same verdict with the success value dropped. */
    function ToOutcome(): Outcome<E>
    {
      match this
      case Ok(_) => Pass
      case Err(e) => Fail(e)
    }
  }

  datatype Outcome<+E> = Pass | Fail(error: E)
}
