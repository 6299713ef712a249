/** FileExportMapper: the projection of a relocation result into the
    on-demand response payload. */
module FileExportMapper {
  import opened OperationResults
  import opened FileTypes
  import opened Dto
  import opened FileSystems
  import opened Relocation

  /** The stream that turns failure records into response error entries,
      one for one and in order. */
  function ToErrorDetails(errors: seq<FileOperationError>): (details: seq<ErrorDetail>)
    ensures |details| == |errors|
    ensures forall i :: 0 <= i < |errors| ==>
              details[i].fileName == errors[i].fileName && details[i].errorMessage == errors[i].errorMessage
    decreases |errors|
  {
    if errors == [] then []
    else
      var last := errors[|errors| - 1];
      ToErrorDetails(errors[..|errors| - 1]) + [ErrorDetail(last.fileName, last.errorMessage)]
  }

  /** The response for one category: its name, the number of files moved,
      the moved names and one error entry per failure. */
  function ToResponse(fileType: FileType, result: FileOperationResult): (r: FileExportResponse)
    reads result
    ensures r.fileType == fileType.Name()
    // files processed counts the moved files only; failures are not counted
    ensures r.filesProcessed == result.SuccessCount()
    ensures r.successfulFiles == result.successfulFiles
    ensures |r.errors| == result.ErrorCount()
    ensures forall i :: 0 <= i < |r.errors| ==>
              r.errors[i] == ErrorDetail(result.errors[i].fileName, result.errors[i].errorMessage)
  {
    FileExportResponse(
      fileType.Name(),
      result.SuccessCount(),
      result.GetSuccessfulFiles(),
      ToErrorDetails(result.GetErrors()))
  }

  /** A response built from the outcome of a relocation accounts for every
      input path exactly once: as a processed file or as an error entry. */
  lemma ResponseAccountsForEveryInput(fileType: FileType, result: FileOperationResult,
                                      disk: Disk, faults: Faults, exportDir: string, paths: seq<Path>)
    requires result.successfulFiles == MoveAll(disk, faults, exportDir, paths).successes
    requires result.errors == MoveAll(disk, faults, exportDir, paths).errors
    ensures ToResponse(fileType, result).filesProcessed + |ToResponse(fileType, result).errors| == |paths|
    ensures multiset(ToResponse(fileType, result).successfulFiles) + multiset(ErrorNames(result.errors))
            == multiset(Names(paths))
  {
    MoveAllIsMerge(disk, faults, exportDir, paths);
  }
}
