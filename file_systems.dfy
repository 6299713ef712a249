/** The part of a file system that the two services see, and the three
    calls of java.nio.file.Files they make on it: exists, createDirectories
    and move with REPLACE_EXISTING.

    A directory is named by the text of its path. The disk maps every path
    that exists to what is there; a path that is not a key does not exist.
    Paths are opaque: the model does not relate a directory to its parent. */
module FileSystems {
  import opened Common

  /** What a directory holds under one name. */
  datatype Entry =
    | RegularFile(content: seq<bv8>)
    | Subdirectory
    | OtherEntry   // a device, socket, pipe or dangling link: not a regular file

  /** What is found at a path that exists. */
  datatype Node =
    | NonDirectory                      // a plain file or another non-directory object
    | Folder(entries: map<string, Entry>)

  type Disk = map<string, Node>

  /** A child `name` of the directory `dir`. */
  datatype Path = Path(dir: string, name: string)
  {
    /** Path.getFileName().toString() */
    function FileName(): string { name }

    /** Path.toString() */
    function Text(): string { dir + "/" + name }
  }

  /** What the operating system refuses for reasons the model does not
      derive from the disk: moves it rejects (permissions, a cross-device
      failure, a locked file), each with the text of its IOException, and
      directories it cannot create. */
  datatype Faults = Faults(moveRefusals: map<Path, string>, uncreatable: set<string>)

  predicate IsFolder(disk: Disk, dir: string)
  {
    dir in disk && disk[dir].Folder?
  }

  /** The entry at `p`, if its directory exists and holds that name. */
  function Lookup(disk: Disk, p: Path): Option<Entry>
  {
    if IsFolder(disk, p.dir) && p.name in disk[p.dir].entries
    then Some(disk[p.dir].entries[p.name])
    else None
  }

  /** Why Files.move(src, dstDir/<name>, REPLACE_EXISTING) throws, or None
      when it succeeds. A source that is gone is reported first, with
      NoSuchFileException's message, the source path. A destination
      directory that is not a directory makes rename(2) fail with ENOTDIR,
      reported as "<source> -> <target>: Not a directory". */
  function MoveFault(disk: Disk, faults: Faults, src: Path, dstDir: string): Option<string>
  {
    if Lookup(disk, src).None? then Some(src.Text())
    else if src in faults.moveRefusals then Some(faults.moveRefusals[src])
    else if !IsFolder(disk, dstDir) then Some(src.Text() + " -> " + Path(dstDir, src.name).Text() + ": Not a directory")
    else None
  }

  /** The disk after a successful move of `src` into `dstDir`. */
  function AfterMove(disk: Disk, src: Path, dstDir: string): (d: Disk)
    requires Lookup(disk, src).Some? && IsFolder(disk, dstDir)
    // the destination name now holds the source's entry, whatever it held before
    ensures Lookup(d, Path(dstDir, src.name)) == Lookup(disk, src)
    // the source is gone, unless it was its own destination
    ensures src.dir != dstDir ==> Lookup(d, src).None?
    // every other entry of every directory is as it was
    ensures forall q :: q != src && q != Path(dstDir, src.name) ==> Lookup(d, q) == Lookup(disk, q)
    // no directory appears, disappears or changes kind
    ensures d.Keys == disk.Keys
    ensures forall dir :: dir in disk ==> (d[dir].Folder? <==> disk[dir].Folder?)
  {
    var entry := disk[src.dir].entries[src.name];
    var removed := disk[src.dir := Folder(disk[src.dir].entries - {src.name})];
    removed[dstDir := Folder(removed[dstDir].entries[src.name := entry])]
  }

  /** Whether Files.createDirectories(dir) throws. On a directory that
      already exists it does nothing; on a path that exists as something
      else it throws FileAlreadyExistsException. */
  predicate CreateFails(disk: Disk, faults: Faults, dir: string)
  {
    if dir in disk then !disk[dir].Folder? else dir in faults.uncreatable
  }

  class FileSystem {
    var disk: Disk
    const faults: Faults

    constructor (disk: Disk, faults: Faults)
      ensures this.disk == disk && this.faults == faults
    {
      this.disk := disk;
      this.faults := faults;
    }

    /** Files.exists */
    predicate Exists(path: string)
      reads this
    {
      path in disk
    }

    /** Files.createDirectories: `failed` says that it threw an IOException. */
    method CreateDirectories(dir: string) returns (failed: bool)
      modifies this
      ensures failed == CreateFails(old(disk), faults, dir)
      ensures !failed ==> IsFolder(disk, dir)
      ensures disk == if failed || dir in old(disk) then old(disk) else old(disk)[dir := Folder(map[])]
    {
      failed := CreateFails(disk, faults, dir);
      if !failed && dir !in disk {
        disk := disk[dir := Folder(map[])];
      }
    }

    /** Files.move(src, dstDir.resolve(src.getFileName()), REPLACE_EXISTING):
        `fault` is the message of the IOException it threw, or None. */
    method Move(src: Path, dstDir: string) returns (fault: Option<string>)
      modifies this
      ensures fault == MoveFault(old(disk), faults, src, dstDir)
      ensures disk == if fault.None? then AfterMove(old(disk), src, dstDir) else old(disk)
    {
      fault := MoveFault(disk, faults, src, dstDir);
      if fault.None? {
        disk := AfterMove(disk, src, dstDir);
      }
    }
  }
}
