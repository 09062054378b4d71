/** Success-or-failure results for the one operation of the source that can
    raise. */
module Results {

  /** The exceptions the modelled code can raise. `FloatDomainError` is what
      `Float#to_i` raises on an infinite value. */
  datatype Error = FloatDomainError

  datatype Result<+T> = Success(value: T) | Failure(error: Error)
}
