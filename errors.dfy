/** The outcomes a call can fail with. `RequestError` and `ApiError` are
    the library's own exception classes; `TypeError` and `NameError` are
    what the Python interpreter raises where the code as written is
    broken, and only the members that model the code as written produce
    them. */
module Errors {

  datatype Error =
    | RequestError(message: string)
    | ApiError(message: string, apiUrl: string)
    | TypeError(message: string)
    | NameError(name: string)

  datatype Result<+T> = Success(value: T) | Failure(error: Error)

  /** The errors the library means to raise, as opposed to interpreter errors. */
  predicate IsLibraryError(e: Error) {
    e.RequestError? || e.ApiError?
  }
}
