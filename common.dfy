/** Failure-carrying wrappers shared by every module of the model. */
module Common {

  /** A value that may be absent: `None` stands for JavaScript's `undefined`,
      `null` or `NaN`, depending on where it is used. */
  datatype Option<+T> = None | Some(value: T)

  /** The outcome of an operation that can throw in the source: `Failure` carries
      the message of the `Error` that the source throws. */
  datatype Result<+T> = Success(value: T) | Failure(error: string)
}
