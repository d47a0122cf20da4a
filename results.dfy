/** Failure-carrying wrappers shared by the modules of this model. */
module Results {

  /** Either a computed value or the reason the computation was abandoned. */
  datatype Result<+T, +E> = Success(value: T) | Failure(error: E)

  /** An optional value. */
  datatype Option<+T> = None | Some(value: T)

  /** Success without a value, or the reason of a failure. */
  datatype Outcome<+E> = Pass | Fail(error: E)
}
