/** FileSystemService of the export service: discovery of a category's
    files in the staging ("tmp") directory, and the move of a list of them
    into the export directory. */
module ExportFileSystemService {
  import opened Common
  import opened FileSystems
  import opened OperationResults
  import opened Exceptions
  import opened Relocation

  /** `order` is how the directory stream reports the children of `dir`:
      each child exactly once. */
  ghost predicate IsListing(disk: Disk, dir: string, order: seq<string>)
  {
    IsFolder(disk, dir) ==>
      && Distinct(order)
      && forall name :: name in disk[dir].entries <==> name in order
  }

  /** A child discovery keeps: a regular file whose name starts with the prefix. */
  predicate Selected(entries: map<string, Entry>, prefix: string, name: string)
  {
    name in entries && entries[name].RegularFile? && prefix <= name
  }

  /** The stream's filter over the children as they are reported. */
  function Matching(dir: string, entries: map<string, Entry>, prefix: string, order: seq<string>): (r: seq<Path>)
    ensures forall p :: p in r <==> p.dir == dir && p.name in order && Selected(entries, prefix, p.name)
    ensures Distinct(order) ==> Distinct(r)
    decreases |order|
  {
    if order == [] then []
    else
      var name := order[|order| - 1];
      Matching(dir, entries, prefix, order[..|order| - 1])
        + (if Selected(entries, prefix, name) then [Path(dir, name)] else [])
  }

  /** A path discovery must return: a direct child of the staging
      directory that is a regular file whose name starts with the prefix. */
  ghost predicate Discoverable(disk: Disk, tmpFolder: string, prefix: string, p: Path)
  {
    && p.dir == tmpFolder
    && Lookup(disk, p).Some?
    && Lookup(disk, p).value.RegularFile?
    && prefix <= p.FileName()
  }

  /** The message of the exception thrown for a staging path that is not a
      directory: it names the prefix and the path. */
  function NotADirectoryMessage(prefix: string, tmpFolder: string): (m: string)
    ensures |m| > 34 + |prefix| + |tmpFolder|
    ensures m[34..34 + |prefix|] == prefix
    ensures m[|m| - |tmpFolder|..] == tmpFolder
  {
    "Failed to list files with prefix: " + prefix + " - path is not a directory: " + tmpFolder
  }

  /** listFilesByPrefix. The walk to depth 1 also reports the staging
      directory itself, which the regular-file filter always drops; only
      its children are listed here. */
  function ListFilesByPrefix(disk: Disk, tmpFolder: string, prefix: string, order: seq<string>)
    : (r: Result<seq<Path>, FileSystemException>)
    requires IsListing(disk, tmpFolder, order)
    // a missing staging directory means nothing to do yet, not a fault
    ensures tmpFolder !in disk ==> r == Ok([])
    // a staging path that is not a directory is the one failure
    ensures r.Err? <==> tmpFolder in disk && !disk[tmpFolder].Folder?
    ensures r.Err? ==>
              r.error.message == NotADirectoryMessage(prefix, tmpFolder)
    // sound and complete, each path once
    ensures r.Ok? ==> forall p :: p in r.value <==> Discoverable(disk, tmpFolder, prefix, p)
    ensures r.Ok? ==> Distinct(r.value)
  {
    if tmpFolder !in disk then
      Ok([])
    else if !disk[tmpFolder].Folder? then
      Err(FileSystemException(NotADirectoryMessage(prefix, tmpFolder)))
    else
      Ok(Matching(tmpFolder, disk[tmpFolder].entries, prefix, order))
  }

  /** Discovery never returns two paths with one base name, so what it
      finds is always a batch whose moves do not interfere. */
  lemma DiscoveryNamesDistinct(disk: Disk, tmpFolder: string, prefix: string, order: seq<string>)
    requires IsListing(disk, tmpFolder, order)
    requires ListFilesByPrefix(disk, tmpFolder, prefix, order).Ok?
    ensures Distinct(Names(ListFilesByPrefix(disk, tmpFolder, prefix, order).value))
  {
  }

  /** moveFiles: ensure the export directory, then move every input into
      it, recording each success and each failure and going on. */
  method MoveFiles(fs: FileSystem, exportFolder: string, filePaths: seq<Path>)
    returns (r: Result<FileOperationResult, FileSystemException>)
    modifies fs
    ensures match MoveFilesSpec(old(fs.disk), fs.faults, exportFolder, filePaths)
      case Err(e) => r == Err(e) && fs.disk == old(fs.disk)
      case Ok(b) =>
        && r.Ok? && fresh(r.value)
        && fs.disk == b.disk
        && r.value.successfulFiles == b.successes
        && r.value.errors == b.errors
  {
    var result := new FileOperationResult();
    if !fs.Exists(exportFolder) {
      var failed := fs.CreateDirectories(exportFolder);
      if failed {
        return Err(FileSystemException("Failed to create export directory: " + exportFolder));
      }
    }
    ghost var start := fs.disk;
    for i := 0 to |filePaths|
      invariant fs.disk == MoveAll(start, fs.faults, exportFolder, filePaths[..i]).disk
      invariant result.successfulFiles == MoveAll(start, fs.faults, exportFolder, filePaths[..i]).successes
      invariant result.errors == MoveAll(start, fs.faults, exportFolder, filePaths[..i]).errors
    {
      var sourcePath := filePaths[i];
      var fileName := sourcePath.FileName();
      assert filePaths[..i + 1][..i] == filePaths[..i];
      var fault := fs.Move(sourcePath, exportFolder);
      match fault {
        case None => result.AddSuccess(fileName);
        case Some(message) => result.AddError(fileName, message);
      }
    }
    assert filePaths[..|filePaths|] == filePaths;
    return Ok(result);
  }
}
