/** The exceptions the storage backend raises or lets through, as values. */
module Errors {

  datatype Error =
      /** Django's `ImproperlyConfigured`, raised by the constructors. */
    | ImproperlyConfigured(message: string)
      /** Django's `SuspiciousFileOperation`, raised by `safe_join` when a
          name escapes the root. */
    | SuspiciousFileOperation
      /** The Dropbox SDK's `ApiError`, raised by a client call. */
    | ApiError
      /** Any other exception a client call raises (a transport failure, a
          malformed response); it propagates unchanged. */
    | ClientError
      /** Python's `NameError`: a name used but never bound. */
    | NameError(name: string)

  datatype Result<+T> = Ok(value: T) | Err(error: Error)
}
