/** What moveFiles does to the disk and what it reports, as functions of
    the disk it starts from: first make sure the export directory exists,
    then try each input once, in order, recording a success or a failure
    for it and going on either way. Both FileSystemService variants are
    proved against MoveFilesSpec. */
module Relocation {
  import opened Common
  import opened FileSystems
  import opened OperationResults
  import opened Exceptions

  /** The state of one pass: the disk, the names moved so far in input
      order, and the failures in the order they were met. */
  datatype Batch = Batch(disk: Disk, successes: seq<string>, errors: seq<FileOperationError>)

  /** The base names of the inputs, in input order. */
  function Names(paths: seq<Path>): (names: seq<string>)
    ensures |names| == |paths|
    ensures forall i :: 0 <= i < |paths| ==> names[i] == paths[i].FileName()
  {
    if paths == [] then [] else Names(paths[..|paths| - 1]) + [paths[|paths| - 1].FileName()]
  }

  /** The file names the failure records are keyed by, in order. */
  function ErrorNames(errors: seq<FileOperationError>): (names: seq<string>)
    ensures |names| == |errors|
    ensures forall i :: 0 <= i < |errors| ==> names[i] == errors[i].fileName
  {
    if errors == [] then [] else ErrorNames(errors[..|errors| - 1]) + [errors[|errors| - 1].fileName]
  }

  /** The per-file loop of moveFiles run over `paths` from `disk`. */
  function MoveAll(disk: Disk, faults: Faults, exportDir: string, paths: seq<Path>): (b: Batch)
    // every input is answered by exactly one entry, success or failure
    ensures |b.successes| + |b.errors| == |paths|
    decreases |paths|
  {
    if paths == [] then Batch(disk, [], [])
    else
      var prev := MoveAll(disk, faults, exportDir, paths[..|paths| - 1]);
      var src := paths[|paths| - 1];
      match MoveFault(prev.disk, faults, src, exportDir)
      case None =>
        Batch(AfterMove(prev.disk, src, exportDir), prev.successes + [src.FileName()], prev.errors)
      case Some(message) =>
        Batch(prev.disk, prev.successes, prev.errors + [FileOperationError(src.FileName(), message)])
  }

  /** The whole of moveFiles: a missing export directory is created first,
      and when that fails the call throws before any file is tried. */
  function MoveFilesSpec(disk: Disk, faults: Faults, exportDir: string, paths: seq<Path>)
    : (r: Result<Batch, FileSystemException>)
    ensures r.Err? <==> exportDir !in disk && CreateFails(disk, faults, exportDir)
    ensures r.Err? ==> r.error.message == "Failed to create export directory: " + exportDir
    ensures r.Ok? ==> |r.value.successes| + |r.value.errors| == |paths|
  {
    if exportDir in disk then
      Ok(MoveAll(disk, faults, exportDir, paths))
    else if CreateFails(disk, faults, exportDir) then
      Err(FileSystemException("Failed to create export directory: " + exportDir))
    else
      Ok(MoveAll(disk[exportDir := Folder(map[])], faults, exportDir, paths))
  }

  /** `all` interleaves `s` and `e`: both keep the order they have in `all`,
      and every element of `all` is in exactly one of them. */
  ghost predicate IsMerge(all: seq<string>, s: seq<string>, e: seq<string>)
    decreases |all|
  {
    if all == [] then s == [] && e == []
    else
      var n := |all| - 1;
      || (s != [] && s[|s| - 1] == all[n] && IsMerge(all[..n], s[..|s| - 1], e))
      || (e != [] && e[|e| - 1] == all[n] && IsMerge(all[..n], s, e[..|e| - 1]))
  }

  lemma {:induction false} MergeMultisets(all: seq<string>, s: seq<string>, e: seq<string>)
    requires IsMerge(all, s, e)
    ensures multiset(all) == multiset(s) + multiset(e)
    decreases |all|
  {
    if all != [] {
      var n := |all| - 1;
      assert all == all[..n] + [all[n]];
      if s != [] && s[|s| - 1] == all[n] && IsMerge(all[..n], s[..|s| - 1], e) {
        MergeMultisets(all[..n], s[..|s| - 1], e);
        assert s == s[..|s| - 1] + [s[|s| - 1]];
      } else {
        MergeMultisets(all[..n], s, e[..|e| - 1]);
        assert e == e[..|e| - 1] + [e[|e| - 1]];
      }
    }
  }

  lemma MergeTakesSuccess(all: seq<string>, s: seq<string>, e: seq<string>, x: string)
    requires IsMerge(all, s, e)
    ensures IsMerge(all + [x], s + [x], e)
  {
  }

  lemma MergeTakesError(all: seq<string>, s: seq<string>, e: seq<string>, x: string)
    requires IsMerge(all, s, e)
    ensures IsMerge(all + [x], s, e + [x])
  {
  }

  /** Each input contributes exactly one entry keyed by its base name: the
      successes, in input order, and the failures, in the order met, are
      an interleaving of the input names. */
  lemma {:induction false} MoveAllIsMerge(disk: Disk, faults: Faults, exportDir: string, paths: seq<Path>)
    ensures var b := MoveAll(disk, faults, exportDir, paths);
      && IsMerge(Names(paths), b.successes, ErrorNames(b.errors))
      && multiset(Names(paths)) == multiset(b.successes) + multiset(ErrorNames(b.errors))
    decreases |paths|
  {
    var b := MoveAll(disk, faults, exportDir, paths);
    if paths != [] {
      var n := |paths| - 1;
      var init, src := paths[..n], paths[n];
      var prev := MoveAll(disk, faults, exportDir, init);
      MoveAllIsMerge(disk, faults, exportDir, init);
      assert Names(paths) == Names(init) + [src.name];
      match MoveFault(prev.disk, faults, src, exportDir)
      case None =>
        assert b.successes == prev.successes + [src.name] && b.errors == prev.errors;
        MergeTakesSuccess(Names(init), prev.successes, ErrorNames(prev.errors), src.name);
      case Some(message) =>
        assert b.successes == prev.successes;
        assert b.errors == prev.errors + [FileOperationError(src.name, message)];
        assert b.errors[..|prev.errors|] == prev.errors;
        assert ErrorNames(b.errors) == ErrorNames(prev.errors) + [src.name];
        MergeTakesError(Names(init), prev.successes, ErrorNames(prev.errors), src.name);
    }
    MergeMultisets(Names(paths), b.successes, ErrorNames(b.errors));
  }

  /** Moves never create, remove or retype a directory. */
  lemma {:induction false} MoveAllKeepsDirectories(disk: Disk, faults: Faults, exportDir: string, paths: seq<Path>)
    ensures var b := MoveAll(disk, faults, exportDir, paths);
      && b.disk.Keys == disk.Keys
      && forall dir :: dir in disk ==> (b.disk[dir].Folder? <==> disk[dir].Folder?)
    decreases |paths|
  {
    if paths != [] {
      MoveAllKeepsDirectories(disk, faults, exportDir, paths[..|paths| - 1]);
    }
  }

  /** `q` is one of the inputs, or an export-directory entry named like one. */
  ghost predicate Touched(paths: seq<Path>, exportDir: string, q: Path)
  {
    q in paths || (q.dir == exportDir && q.name in Names(paths))
  }

  /** Nothing else changes: an entry that is neither an input nor the
      destination of one is as it was. */
  lemma {:induction false} MoveAllFrame(disk: Disk, faults: Faults, exportDir: string, paths: seq<Path>, q: Path)
    requires !Touched(paths, exportDir, q)
    ensures Lookup(MoveAll(disk, faults, exportDir, paths).disk, q) == Lookup(disk, q)
    decreases |paths|
  {
    if paths != [] {
      var n := |paths| - 1;
      var init := paths[..n];
      assert Names(paths) == Names(init) + [paths[n].name];
      assert forall p :: p in init ==> p in paths;
      MoveAllFrame(disk, faults, exportDir, init, q);
    }
  }

  /** Reference definition: the names of the inputs whose move the
      starting disk allows, each judged on its own. */
  function MovedNames(disk: Disk, faults: Faults, exportDir: string, paths: seq<Path>): seq<string>
    decreases |paths|
  {
    if paths == [] then []
    else
      var src := paths[|paths| - 1];
      MovedNames(disk, faults, exportDir, paths[..|paths| - 1])
        + (if MoveFault(disk, faults, src, exportDir).None? then [src.FileName()] else [])
  }

  /** Reference definition: the failure each input meets on the starting
      disk, judged on its own. */
  function FailedMoves(disk: Disk, faults: Faults, exportDir: string, paths: seq<Path>): seq<FileOperationError>
    decreases |paths|
  {
    if paths == [] then []
    else
      var src := paths[|paths| - 1];
      FailedMoves(disk, faults, exportDir, paths[..|paths| - 1])
        + match MoveFault(disk, faults, src, exportDir)
          case None => []
          case Some(message) => [FileOperationError(src.FileName(), message)]
  }

  lemma DistinctPrefix(s: seq<string>, n: nat)
    requires Distinct(s) && n <= |s|
    ensures Distinct(s[..n])
  {
  }

  /** Per-file error isolation: when no two inputs share a base name, the
      fate of each input depends only on the disk the pass started from,
      not on which other inputs moved or failed before it. */
  lemma {:induction false} MoveAllIsolation(disk: Disk, faults: Faults, exportDir: string, paths: seq<Path>)
    requires Distinct(Names(paths))
    ensures var b := MoveAll(disk, faults, exportDir, paths);
      && b.successes == MovedNames(disk, faults, exportDir, paths)
      && b.errors == FailedMoves(disk, faults, exportDir, paths)
    decreases |paths|
  {
    if paths != [] {
      var n := |paths| - 1;
      var init, last := paths[..n], paths[n];
      assert Names(init) == Names(paths)[..n];
      DistinctPrefix(Names(paths), n);
      MoveAllIsolation(disk, faults, exportDir, init);
      assert last.name !in Names(init);
      assert last !in init;
      MoveAllFrame(disk, faults, exportDir, init, last);
      MoveAllKeepsDirectories(disk, faults, exportDir, init);
    }
  }

  /** Where each input ends up when no two inputs share a base name. A
      moved file's content is at export/<name>, replacing what was there,
      and is gone from its source; a failed file stays where it was and its
      destination name is untouched. */
  lemma {:induction false} MoveAllPlacement(disk: Disk, faults: Faults, exportDir: string, paths: seq<Path>, i: nat)
    requires Distinct(Names(paths)) && i < |paths|
    ensures var b := MoveAll(disk, faults, exportDir, paths);
      var src, dst := paths[i], Path(exportDir, paths[i].FileName());
      && (MoveFault(disk, faults, src, exportDir).None? ==>
            && Lookup(b.disk, dst) == Lookup(disk, src)
            && (src.dir != exportDir ==> Lookup(b.disk, src).None?))
      && (MoveFault(disk, faults, src, exportDir).Some? ==>
            && Lookup(b.disk, src) == Lookup(disk, src)
            && Lookup(b.disk, dst) == Lookup(disk, dst))
    decreases |paths|
  {
    var n := |paths| - 1;
    var init, last := paths[..n], paths[n];
    assert Names(init) == Names(paths)[..n];
    DistinctPrefix(Names(paths), n);
    assert last.name !in Names(init);
    assert last !in init;
    MoveAllFrame(disk, faults, exportDir, init, last);
    MoveAllKeepsDirectories(disk, faults, exportDir, init);
    if i == n {
      MoveAllFrame(disk, faults, exportDir, init, Path(exportDir, last.name));
    } else {
      assert init[i] == paths[i];
      assert paths[i].name != last.name;
      MoveAllPlacement(disk, faults, exportDir, init, i);
    }
  }

  lemma {:induction false} DistinctCountsAtMostOne(s: seq<string>, x: string)
    requires Distinct(s)
    ensures multiset(s)[x] <= 1
    decreases |s|
  {
    if s != [] {
      var n := |s| - 1;
      assert s == s[..n] + [s[n]];
      DistinctPrefix(s, n);
      DistinctCountsAtMostOne(s[..n], x);
      if x == s[n] {
        assert x !in s[..n];
      }
    }
  }

  /** When no two inputs share a base name, each input name appears in
      exactly one of the two lists, once, and no other name appears. */
  lemma NoFileInBothLists(disk: Disk, faults: Faults, exportDir: string, paths: seq<Path>, name: string)
    requires Distinct(Names(paths))
    ensures var b := MoveAll(disk, faults, exportDir, paths);
      !(name in b.successes && name in ErrorNames(b.errors))
    ensures var b := MoveAll(disk, faults, exportDir, paths);
      multiset(b.successes)[name] + multiset(ErrorNames(b.errors))[name] == (if name in Names(paths) then 1 else 0)
  {
    MoveAllIsMerge(disk, faults, exportDir, paths);
    DistinctCountsAtMostOne(Names(paths), name);
  }

  /** With the same input twice, the first attempt moves the file and the
      second finds it gone: one name lands in both lists. */
  lemma DuplicateInputIsReportedTwice()
    ensures var src := Path("tmp", "a.txt");
      var disk := map["tmp" := Folder(map["a.txt" := RegularFile([])]), "export" := Folder(map[])];
      var b := MoveAll(disk, Faults(map[], {}), "export", [src, src]);
      b.successes == ["a.txt"] && b.errors == [FileOperationError("a.txt", "tmp/a.txt")]
  {
    var src := Path("tmp", "a.txt");
    var faults := Faults(map[], {});
    var disk := map["tmp" := Folder(map["a.txt" := RegularFile([])]), "export" := Folder(map[])];
    assert [src][..0] == [];
    assert Lookup(disk, src).Some? && IsFolder(disk, "export");
    assert MoveFault(disk, faults, src, "export").None?;
    assert MoveAll(disk, faults, "export", [src][..0]) == Batch(disk, [], []);
    var first := MoveAll(disk, faults, "export", [src]);
    assert first == Batch(AfterMove(disk, src, "export"), ["a.txt"], []);
    assert Lookup(first.disk, src).None?;
    assert src.Text() == "tmp/a.txt";
    assert [src, src][..1] == [src];
  }

  /** Once a call has returned, the export directory exists, so a later
      call neither creates it again nor fails on it. */
  lemma {:induction false} ExportDirCreatedOnce(disk: Disk, faults: Faults, exportDir: string, paths: seq<Path>, later: seq<Path>)
    requires MoveFilesSpec(disk, faults, exportDir, paths).Ok?
    ensures var d := MoveFilesSpec(disk, faults, exportDir, paths).value.disk;
      MoveFilesSpec(d, faults, exportDir, later) == Ok(MoveAll(d, faults, exportDir, later))
  {
    var start := if exportDir in disk then disk else disk[exportDir := Folder(map[])];
    MoveAllKeepsDirectories(start, faults, exportDir, paths);
  }

  /** An empty input yields an empty, fully successful result, and the
      only change it may make is creating the export directory. */
  lemma EmptyInput(disk: Disk, faults: Faults, exportDir: string)
    ensures exportDir in disk ==> MoveFilesSpec(disk, faults, exportDir, []) == Ok(Batch(disk, [], []))
    ensures exportDir !in disk && !CreateFails(disk, faults, exportDir) ==>
      MoveFilesSpec(disk, faults, exportDir, []) == Ok(Batch(disk[exportDir := Folder(map[])], [], []))
  {
  }

  /** A file deleted before its turn is one failure entry; the file next to
      it still moves, and the call returns normally. */
  lemma VanishedFileIsIsolated()
    ensures var disk := map["tmp" := Folder(map["a.txt" := RegularFile([7])])];
      var r := MoveFilesSpec(disk, Faults(map[], {}), "export", [Path("tmp", "a.txt"), Path("tmp", "b.txt")]);
      && r.Ok?
      && r.value.successes == ["a.txt"]
      && r.value.errors == [FileOperationError("b.txt", "tmp/b.txt")]
      && Lookup(r.value.disk, Path("export", "a.txt")) == Some(RegularFile([7]))
  {
    var a, b := Path("tmp", "a.txt"), Path("tmp", "b.txt");
    var faults := Faults(map[], {});
    var disk := map["tmp" := Folder(map["a.txt" := RegularFile([7])])];
    assert "export" !in disk;
    var start := disk["export" := Folder(map[])];
    assert [a][..0] == [];
    assert Lookup(start, a) == Some(RegularFile([7])) && IsFolder(start, "export");
    assert MoveFault(start, faults, a, "export").None?;
    assert MoveAll(start, faults, "export", [a][..0]) == Batch(start, [], []);
    var first := MoveAll(start, faults, "export", [a]);
    assert first == Batch(AfterMove(start, a, "export"), ["a.txt"], []);
    assert Lookup(first.disk, Path("export", "a.txt")) == Some(RegularFile([7]));
    assert b != a && b != Path("export", "a.txt");
    assert Lookup(first.disk, b) == Lookup(start, b) == None;
    assert b.Text() == "tmp/b.txt";
    assert [a, b][..1] == [a];
  }
}
