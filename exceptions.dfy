/** The exceptions that cross the service boundary. FileSystemException is
    the typed failure both services throw; every other exception is known
    only by its message. */
module Exceptions {

  datatype FileSystemException = FileSystemException(message: string)

  datatype Exception =
    | FileSystemError(cause: FileSystemException)
    | OtherError(message: string)
  {
    /** Throwable.getMessage() */
    function Message(): string
    {
      match this
      case FileSystemError(e) => e.message
      case OtherError(m) => m
    }
  }
}
