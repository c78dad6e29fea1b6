/** The two result shapes shared by every module. */
module Wrappers {

  datatype Option<+T> = None | Some(value: T)

  /** A value, or the exception the source would throw. */
  datatype Result<+T> = Success(value: T) | Failure(error: Error)

  /** The exception classes of the client library. */
  datatype Error = Timeout | Connection | Protocol | InvalidArgument
}
