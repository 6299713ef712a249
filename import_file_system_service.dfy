/** FileSystemService of the import service: the same two operations as
    the export service's, with discovery filling a list element by element
    from a one-level directory listing. */
module ImportFileSystemService {
  import opened Common
  import opened FileSystems
  import opened OperationResults
  import opened Exceptions
  import opened Relocation
  import ExportFileSystemService

  /** listFilesByPrefix. It reads the disk and changes nothing. On a staging
      path that is not a directory the listing itself throws, and the
      message names only the prefix; otherwise it returns exactly what the
      export variant returns for the same listing. */
  method ListFilesByPrefix(fs: FileSystem, tmpFolder: string, prefix: string, order: seq<string>)
    returns (r: Result<seq<Path>, FileSystemException>)
    requires ExportFileSystemService.IsListing(fs.disk, tmpFolder, order)
    ensures var same := ExportFileSystemService.ListFilesByPrefix(fs.disk, tmpFolder, prefix, order);
      && (r.Ok? <==> same.Ok?)
      && (r.Ok? ==> r.value == same.value)
    ensures r.Err? ==> r.error == FileSystemException("Failed to list files with prefix: " + prefix)
  {
    var matchingFiles: seq<Path> := [];
    if !fs.Exists(tmpFolder) {
      return Ok(matchingFiles);
    }
    var node := fs.disk[tmpFolder];
    if !node.Folder? {
      // Files.list throws NotDirectoryException, rethrown as FileSystemException
      return Err(FileSystemException("Failed to list files with prefix: " + prefix));
    }
    var i := 0;
    while i < |order|
      invariant i <= |order|
      invariant matchingFiles == ExportFileSystemService.Matching(tmpFolder, node.entries, prefix, order[..i])
    {
      var name := order[i];
      assert order[..i + 1][..i] == order[..i];
      if name in node.entries && node.entries[name].RegularFile? && prefix <= name {
        matchingFiles := matchingFiles + [Path(tmpFolder, name)];
      }
      i := i + 1;
    }
    assert order[..i] == order;
    return Ok(matchingFiles);
  }

  /** moveFiles, the same relocation as the export service's. */
  method MoveFiles(fs: FileSystem, exportFolder: string, filePaths: seq<Path>)
    returns (r: Result<FileOperationResult, FileSystemException>)
    modifies fs
    ensures match MoveFilesSpec(old(fs.disk), fs.faults, exportFolder, filePaths)
      case Err(e) => r == Err(e) && fs.disk == old(fs.disk)
      case Ok(b) =>
        && r.Ok? && fresh(r.value)
        && fs.disk == b.disk
        && r.value.successfulFiles == b.successes
        && r.value.errors == b.errors
  {
    var result := new FileOperationResult();
    if !fs.Exists(exportFolder) {
      var failed := fs.CreateDirectories(exportFolder);
      if failed {
        return Err(FileSystemException("Failed to create export directory: " + exportFolder));
      }
    }
    ghost var start := fs.disk;
    for i := 0 to |filePaths|
      invariant fs.disk == MoveAll(start, fs.faults, exportFolder, filePaths[..i]).disk
      invariant result.successfulFiles == MoveAll(start, fs.faults, exportFolder, filePaths[..i]).successes
      invariant result.errors == MoveAll(start, fs.faults, exportFolder, filePaths[..i]).errors
    {
      var sourcePath := filePaths[i];
      var fileName := sourcePath.FileName();
      assert filePaths[..i + 1][..i] == filePaths[..i];
      var fault := fs.Move(sourcePath, exportFolder);
      match fault {
        case None => result.AddSuccess(fileName);
        case Some(message) => result.AddError(fileName, message);
      }
    }
    assert filePaths[..|filePaths|] == filePaths;
    return Ok(result);
  }
}
