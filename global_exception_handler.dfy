/** GlobalExceptionHandler: every exception that escapes an on-demand
    export becomes a server-fault response of one fixed shape. */
module GlobalExceptionHandler {
  import opened Exceptions
  import opened FileTypes
  import opened Dto

  const INTERNAL_SERVER_ERROR: int := 500

  datatype ResponseEntity = ResponseEntity(status: int, body: FileExportResponse)

  /** The shape both handlers share: no category, nothing processed, and
      a single error entry tagged "system". */
  function FailureResponse(message: string): (r: ResponseEntity)
    ensures r.status == INTERNAL_SERVER_ERROR
    ensures r.body.fileType == "UNKNOWN" && r.body.filesProcessed == 0 && r.body.successfulFiles == []
    ensures r.body.errors == [ErrorDetail("system", message)]
  {
    ResponseEntity(INTERNAL_SERVER_ERROR, FileExportResponse("UNKNOWN", 0, [], [ErrorDetail("system", message)]))
  }

  /** handleFileSystemException: the exception's message, verbatim. */
  function HandleFileSystemException(e: FileSystemException): (r: ResponseEntity)
    ensures r.status == INTERNAL_SERVER_ERROR && r.body.fileType == "UNKNOWN"
    ensures r.body.filesProcessed == 0 && r.body.successfulFiles == []
    ensures r.body.errors == [ErrorDetail("system", e.message)]
  {
    FailureResponse(e.message)
  }

  /** handleGenericException: the exception's message after a fixed lead-in. */
  function HandleGenericException(e: Exception): (r: ResponseEntity)
    ensures r.status == INTERNAL_SERVER_ERROR && r.body.fileType == "UNKNOWN"
    ensures r.body.filesProcessed == 0 && r.body.successfulFiles == []
    ensures |r.body.errors| == 1 && r.body.errors[0].fileName == "system"
    // the original message survives as the suffix
    ensures var m := r.body.errors[0].errorMessage;
      |m| >= |e.Message()| && m[|m| - |e.Message()|..] == e.Message()
    ensures "An unexpected error occurred: " <= r.body.errors[0].errorMessage
  {
    FailureResponse("An unexpected error occurred: " + e.Message())
  }

  /** Which handler answers: the one for FileSystemException when the
      exception is one, the generic one for anything else. */
  function Handle(e: Exception): (r: ResponseEntity)
    ensures r.status == INTERNAL_SERVER_ERROR
    ensures e.FileSystemError? ==> r.body.errors == [ErrorDetail("system", e.Message())]
    ensures e.OtherError? ==>
      r.body.errors == [ErrorDetail("system", "An unexpected error occurred: " + e.Message())]
  {
    match e
    case FileSystemError(cause) => HandleFileSystemException(cause)
    case OtherError(_) => HandleGenericException(e)
  }

  /** A failure payload never names a category, so a client can tell it
      from any payload the mapper builds. */
  lemma FailureIsNoCategory(e: Exception, fileType: FileType)
    ensures Handle(e).body.fileType != fileType.Name()
  {
  }
}
