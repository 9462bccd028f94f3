/** Option and Result, and the two kinds of failure the backend raises. */
module Wrappers {

  datatype Option<+T> = None | Some(value: T)

  /** `AppError(status, message)` is the backend's own HTTP-shaped error;
      `Failure(message)` is any other thrown `Error` (a provider SDK, the
      database, a plain `throw new Error(...)`). */
  datatype Error = AppError(status: int, message: string) | Failure(message: string)

  datatype Result<+T> = Ok(value: T) | Err(error: Error)

  function NotFound(message: string): Error
  {
    AppError(404, message)
  }
}
