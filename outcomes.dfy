/** Result values and the exceptions the Jenkins client raises or lets through. */
module Outcomes {

  /** The exception classes that leave the client. */
  datatype Exception =
    | JenkinsApiException(message: string)
    | InvalidArgumentException(message: string)
    | RuntimeException(message: string)
      /** PHP's Error, raised when a method is called on a value that is not an object */
    | PhpError(message: string)

  datatype Option<+T> = None | Some(value: T)

  /** A call that either returns a value or throws. */
  datatype Result<+T> = Ok(value: T) | Err(error: Exception)

  /** A call that returns nothing and may throw. */
  datatype Outcome = Pass | Fail(error: Exception)
}
