/** ScheduledFileProcessor: the timer-driven trigger. Each category's
    entry point lists that category's files, moves them when there are
    any, and swallows every exception, so a run always returns normally. */
module ScheduledFileProcessor {
  import opened Common
  import opened FileSystems
  import opened Exceptions
  import opened FileTypes
  import opened Relocation
  import opened ExportFileSystemService

  /** A call the processor makes on FileSystemService. */
  datatype ServiceCall =
    | ListFilesByPrefixCall(prefixPattern: string)
    | MoveFilesCall(filePaths: seq<Path>)

  /** The calls a run makes and the disk it leaves behind. */
  datatype Run = Run(calls: seq<ServiceCall>, disk: Disk)

  /** What processFilesByType does, as a function of the disk it starts on. */
  ghost function ScheduledRun(disk: Disk, faults: Faults, tmpFolder: string, exportFolder: string,
                              fileType: FileType, order: seq<string>): Run
    requires IsListing(disk, tmpFolder, order)
  {
    var prefix := fileType.PrefixPattern();
    match ListFilesByPrefix(disk, tmpFolder, prefix, order)
    case Err(_) => Run([ListFilesByPrefixCall(prefix)], disk)
    case Ok(files) =>
      if files == [] then Run([ListFilesByPrefixCall(prefix)], disk)
      else
        var after := match MoveFilesSpec(disk, faults, exportFolder, files)
                     case Ok(b) => b.disk
                     case Err(_) => disk;
        Run([ListFilesByPrefixCall(prefix), MoveFilesCall(files)], after)
  }

  /** processFilesByType. `calls` records the service calls made, in order. */
  method ProcessFilesByType(fs: FileSystem, tmpFolder: string, exportFolder: string,
                            fileType: FileType, order: seq<string>)
    returns (calls: seq<ServiceCall>)
    requires IsListing(fs.disk, tmpFolder, order)
    modifies fs
    ensures Run(calls, fs.disk) == ScheduledRun(old(fs.disk), fs.faults, tmpFolder, exportFolder, fileType, order)
  {
    var prefix := fileType.PrefixPattern();
    calls := [ListFilesByPrefixCall(prefix)];
    var listed := ListFilesByPrefix(fs.disk, tmpFolder, prefix, order);
    if listed.Err? {
      return;   // caught and logged
    }
    var files := listed.value;
    if files == [] {
      return;   // nothing found: the export directory is not even checked
    }
    calls := calls + [MoveFilesCall(files)];
    var moved := MoveFiles(fs, exportFolder, files);
    // a thrown FileSystemException is caught and logged; a result is only logged
  }

  /** processRedemptionFiles */
  method ProcessRedemptionFiles(fs: FileSystem, tmpFolder: string, exportFolder: string, order: seq<string>)
    returns (calls: seq<ServiceCall>)
    requires IsListing(fs.disk, tmpFolder, order)
    modifies fs
    ensures Run(calls, fs.disk) == ScheduledRun(old(fs.disk), fs.faults, tmpFolder, exportFolder, REDEMPTION, order)
  {
    calls := ProcessFilesByType(fs, tmpFolder, exportFolder, REDEMPTION, order);
  }

  /** processOutpayFiles */
  method ProcessOutpayFiles(fs: FileSystem, tmpFolder: string, exportFolder: string, order: seq<string>)
    returns (calls: seq<ServiceCall>)
    requires IsListing(fs.disk, tmpFolder, order)
    modifies fs
    ensures Run(calls, fs.disk) == ScheduledRun(old(fs.disk), fs.faults, tmpFolder, exportFolder, OUTPAY, order)
  {
    calls := ProcessFilesByType(fs, tmpFolder, exportFolder, OUTPAY, order);
  }

  /** processOwnAndBenFiles */
  method ProcessOwnAndBenFiles(fs: FileSystem, tmpFolder: string, exportFolder: string, order: seq<string>)
    returns (calls: seq<ServiceCall>)
    requires IsListing(fs.disk, tmpFolder, order)
    modifies fs
    ensures Run(calls, fs.disk) == ScheduledRun(old(fs.disk), fs.faults, tmpFolder, exportFolder, OWN_AND_BEN, order)
  {
    calls := ProcessFilesByType(fs, tmpFolder, exportFolder, OWN_AND_BEN, order);
  }

  /** The control rule of a run: it always lists with the category's
      prefix first; when the listing throws or finds nothing it makes no
      other call and leaves the disk as it was; otherwise it calls moveFiles
      exactly once, with exactly the listed files. */
  lemma ControlRule(disk: Disk, faults: Faults, tmpFolder: string, exportFolder: string,
                    fileType: FileType, order: seq<string>)
    requires IsListing(disk, tmpFolder, order)
    ensures var run := ScheduledRun(disk, faults, tmpFolder, exportFolder, fileType, order);
      var listed := ListFilesByPrefix(disk, tmpFolder, fileType.PrefixPattern(), order);
      && |run.calls| >= 1
      && run.calls[0] == ListFilesByPrefixCall(fileType.PrefixPattern())
      && ((listed.Err? || listed.value == []) <==> |run.calls| == 1)
      && (|run.calls| == 1 ==> run.disk == disk)
      && (|run.calls| != 1 ==> run.calls[1..] == [MoveFilesCall(listed.value)])
  {
  }

  /** Two categories never discover the same file. */
  lemma {:induction false} CategoriesDiscoverDisjointFiles(disk: Disk, tmpFolder: string, order: seq<string>,
                                                           a: FileType, b: FileType, p: Path)
    requires IsListing(disk, tmpFolder, order) && a != b
    ensures var ra := ListFilesByPrefix(disk, tmpFolder, a.PrefixPattern(), order);
      var rb := ListFilesByPrefix(disk, tmpFolder, b.PrefixPattern(), order);
      ra.Ok? && rb.Ok? ==> !(p in ra.value && p in rb.value)
  {
    CategoriesSelectDisjointNames(a, b, p.name);
  }

  /** A run for one category leaves every file named with another
      category's prefix where it was, whatever directory it is in. */
  lemma {:induction false} OtherCategoriesUntouched(disk: Disk, faults: Faults, tmpFolder: string, exportFolder: string,
                                                    order: seq<string>, a: FileType, b: FileType, p: Path)
    requires IsListing(disk, tmpFolder, order) && a != b
    requires b.PrefixPattern() <= p.FileName()
    ensures Lookup(ScheduledRun(disk, faults, tmpFolder, exportFolder, a, order).disk, p) == Lookup(disk, p)
  {
    CategoriesSelectDisjointNames(a, b, p.name);
    var listed := ListFilesByPrefix(disk, tmpFolder, a.PrefixPattern(), order);
    if listed.Ok? && listed.value != [] {
      var files := listed.value;
      // every listed file starts with a's prefix, so none is p or shares its name
      assert p !in files;
      assert forall i :: 0 <= i < |files| ==> files[i] in files;
      assert p.name !in Names(files);
      var start := if exportFolder in disk then disk else disk[exportFolder := Folder(map[])];
      if !CreateFails(disk, faults, exportFolder) || exportFolder in disk {
        assert Lookup(start, p) == Lookup(disk, p);
        MoveAllFrame(start, faults, exportFolder, files, p);
      }
    }
  }

  /** A staging directory with two redemption files and one outpay file,
      and the order its listing reports them in. */
  const Redemption01 := Path("tmp", "redemption_01.txt")
  const Redemption02 := Path("tmp", "redemption_02.txt")
  const Outpay01 := Path("tmp", "outpay_01.txt")

  function ScenarioDisk(): Disk
  {
    map["tmp" := Folder(map[Redemption01.name := RegularFile([1]), Redemption02.name := RegularFile([2]),
                            Outpay01.name := RegularFile([3])])]
  }

  function ScenarioOrder(): seq<string>
  {
    [Redemption01.name, Outpay01.name, Redemption02.name]
  }

  /** Discovery for "redemption" in the scenario finds the two redemption files. */
  lemma RedemptionScenarioListing()
    ensures IsListing(ScenarioDisk(), "tmp", ScenarioOrder())
    ensures ListFilesByPrefix(ScenarioDisk(), "tmp", "redemption", ScenarioOrder()) == Ok([Redemption01, Redemption02])
  {
    var entries := ScenarioDisk()["tmp"].entries;
    var order := ScenarioOrder();
    assert order[..0] == [] && order[..1] == [Redemption01.name] && order[..2] == [Redemption01.name, Outpay01.name];
    assert "redemption"[0] != Outpay01.name[0];
    assert Selected(entries, "redemption", Redemption01.name) && Selected(entries, "redemption", Redemption02.name);
    assert !Selected(entries, "redemption", Outpay01.name);
    assert Matching("tmp", entries, "redemption", order[..0]) == [];
    assert Matching("tmp", entries, "redemption", order[..1]) == [Redemption01];
    assert Matching("tmp", entries, "redemption", order[..2]) == [Redemption01];
    assert Matching("tmp", entries, "redemption", order) == [Redemption01, Redemption02];
  }

  /** The redemption run in the scenario moves the two redemption files
      into a newly created export directory and leaves the outpay file. */
  lemma RedemptionScenario()
    ensures IsListing(ScenarioDisk(), "tmp", ScenarioOrder())
    ensures var run := ScheduledRun(ScenarioDisk(), Faults(map[], {}), "tmp", "export", REDEMPTION, ScenarioOrder());
      && run.calls == [ListFilesByPrefixCall("redemption"), MoveFilesCall([Redemption01, Redemption02])]
      && Lookup(run.disk, Path("export", Redemption01.name)) == Some(RegularFile([1]))
      && Lookup(run.disk, Path("export", Redemption02.name)) == Some(RegularFile([2]))
      && Lookup(run.disk, Redemption01).None? && Lookup(run.disk, Redemption02).None?
      && Lookup(run.disk, Outpay01) == Some(RegularFile([3]))
  {
    RedemptionScenarioListing();
    var disk, faults := ScenarioDisk(), Faults(map[], {});
    var files := [Redemption01, Redemption02];
    assert Names(files) == [Redemption01.name, Redemption02.name];
    var start := disk["export" := Folder(map[])];
    assert MoveFilesSpec(disk, faults, "export", files) == Ok(MoveAll(start, faults, "export", files));
    assert Lookup(start, Redemption01) == Some(RegularFile([1]));
    assert Lookup(start, Redemption02) == Some(RegularFile([2]));
    assert MoveFault(start, faults, Redemption01, "export").None?;
    assert MoveFault(start, faults, Redemption02, "export").None?;
    MoveAllPlacement(start, faults, "export", files, 0);
    MoveAllPlacement(start, faults, "export", files, 1);
    OtherCategoriesUntouched(disk, faults, "tmp", "export", ScenarioOrder(), REDEMPTION, OUTPAY, Outpay01);
  }
}
