/** The response payload of the on-demand export surface. */
module Dto {

  datatype ErrorDetail = ErrorDetail(fileName: string, errorMessage: string)

  datatype FileExportResponse = FileExportResponse(
    fileType: string,
    filesProcessed: int,
    successfulFiles: seq<string>,
    errors: seq<ErrorDetail>)
}
