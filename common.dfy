/** Small failure-carrying wrappers shared by every module of the model. */
module Common {

  /** A value that may be absent: Python's `None` versus a present value. */
  datatype Option<+T> = None | Some(value: T)

  /**
   * What one call into code outside the model did: it either raised an
   * exception (of any kind: the callers catch every `Exception` alike) or
   * returned a value.
   */
  datatype Outcome<+T> = Raised | Returned(value: T)
}
