/** `FolderScanner`: the object that holds the roots, the report settings
    and the three tallies, and whose `Scan` walks the roots and writes the
    reports. Each method is proved to do what the matching function of
    `ScanModel` describes. */
module Scanner {
  import opened Wrappers
  import opened FolderTree
  import opened Tallies
  import opened Aggregation
  import opened Reports
  import opened ScanModel

  /** The exceptions the constructor throws. */
  datatype ConfigError =
    | RootsNull
    | RootsEmpty
    | ReportPathNull(parameter: string)
    | DirectoryNotFound(reportPath: string)

  /** The constructor's arguments; `None` stands for a null reference. The
      progress collaborator is given by the values its cancellation flag
      will show at successive checkpoints. */
  datatype Config = Config(
    roots: Option<seq<Dir>>,
    dateReportPath: Option<string>,
    extensionReportPath: Option<string>,
    folderReportPath: Option<string>,
    folderReportMinBytes: int,
    progress: Option<seq<bool>>)

  /** A report path is usable: not null, and the directory that would hold
      it exists (`parentExists` stands for
      `Directory.Exists(Path.GetDirectoryName(path))`). */
  predicate PathUsable(p: Option<string>, parentExists: string -> bool)
  {
    p.Some? && parentExists(p.value)
  }

  /** The constructor's argument checks, in the order it makes them. */
  function CheckConfig(c: Config, parentExists: string -> bool): (r: Result<seq<Dir>, ConfigError>)
    ensures r.Success? <==>
      && c.roots.Some? && |c.roots.value| > 0
      && PathUsable(c.dateReportPath, parentExists)
      && PathUsable(c.extensionReportPath, parentExists)
      && PathUsable(c.folderReportPath, parentExists)
    ensures r.Success? ==> r.value == c.roots.value && |r.value| > 0
    ensures c.roots.None? ==> r == Failure(RootsNull)
    ensures c.roots == Some([]) ==> r == Failure(RootsEmpty)
  {
    if c.roots.None? then Failure(RootsNull)
    else if |c.roots.value| == 0 then Failure(RootsEmpty)
    else if c.dateReportPath.None? then Failure(ReportPathNull("dateReportPath"))
    else if !parentExists(c.dateReportPath.value) then Failure(DirectoryNotFound(c.dateReportPath.value))
    else if c.extensionReportPath.None? then Failure(ReportPathNull("extensionReportPath"))
    else if !parentExists(c.extensionReportPath.value) then Failure(DirectoryNotFound(c.extensionReportPath.value))
    else if c.folderReportPath.None? then Failure(ReportPathNull("folderReportPath"))
    else if !parentExists(c.folderReportPath.value) then Failure(DirectoryNotFound(c.folderReportPath.value))
    else Success(c.roots.value)
  }

  class FolderScanner {
    const roots: seq<Dir>
    const dateReportPath: string
    const extensionReportPath: string
    const folderReportPath: string
    const folderReportMinBytes: int
    const hasProgress: bool
    const cancelFeed: seq<bool>

    var bytesByDate: Tally<nat>
    var bytesByExtension: Tally<string>
    var bytesByFolder: Tally<string>
    /** Checkpoints passed so far: the position in the cancellation feed. */
    var checkpoints: nat
    /** Progress notices sent so far. */
    var notices: seq<Notice>
    var extensionReport: Option<Report<string>>
    var dateReport: Option<Report<nat>>
    var folderReport: Option<Report<string>>

    function Progress(): Env
    {
      Env(hasProgress, cancelFeed)
    }

    function CurrentTallies(): Aggregate
      reads this
    {
      Aggregate(bytesByDate, bytesByExtension, bytesByFolder)
    }

    function State(): St
      reads this
    {
      St(CurrentTallies(), checkpoints, notices)
    }

    function Written(): Outputs
      reads this
    {
      Outputs(extensionReport, dateReport, folderReport)
    }

    /** At least one root, and the three tallies balanced. */
    ghost predicate Valid()
      reads this
    {
      |roots| > 0 && Balanced(CurrentTallies())
    }

    /** The constructor, once its checks have passed. */
    constructor Init(c: Config, parentExists: string -> bool)
      requires CheckConfig(c, parentExists).Success?
      ensures Valid()
      ensures roots == c.roots.value && folderReportMinBytes == c.folderReportMinBytes
      ensures dateReportPath == c.dateReportPath.value
      ensures extensionReportPath == c.extensionReportPath.value
      ensures folderReportPath == c.folderReportPath.value
      ensures Progress() == Env(c.progress.Some?, if c.progress.Some? then c.progress.value else [])
      ensures CurrentTallies() == Cleared() && checkpoints == 0 && notices == []
      ensures Written() == Outputs(None, None, None)
    {
      roots := c.roots.value;
      dateReportPath := c.dateReportPath.value;
      extensionReportPath := c.extensionReportPath.value;
      folderReportPath := c.folderReportPath.value;
      folderReportMinBytes := c.folderReportMinBytes;
      hasProgress := c.progress.Some?;
      cancelFeed := if c.progress.Some? then c.progress.value else [];
      bytesByDate := Empty();
      bytesByExtension := Empty();
      bytesByFolder := Empty();
      checkpoints := 0;
      notices := [];
      extensionReport, dateReport, folderReport := None, None, None;
    }

    /** `new FolderScanner(...)`: the checks, then the object. */
    static method Create(c: Config, parentExists: string -> bool) returns (r: Result<FolderScanner, ConfigError>)
      ensures r.Failure? ==> CheckConfig(c, parentExists) == Failure(r.error)
      ensures r.Success? ==> CheckConfig(c, parentExists).Success?
      ensures r.Success? ==> fresh(r.value) && r.value.Valid()
      ensures r.Success? ==>
        && r.value.roots == c.roots.value
        && r.value.folderReportMinBytes == c.folderReportMinBytes
        && r.value.dateReportPath == c.dateReportPath.value
        && r.value.extensionReportPath == c.extensionReportPath.value
        && r.value.folderReportPath == c.folderReportPath.value
      ensures r.Success? ==>
        r.value.Progress() == Env(c.progress.Some?, if c.progress.Some? then c.progress.value else [])
      ensures r.Success? ==>
        && r.value.CurrentTallies() == Cleared()
        && r.value.checkpoints == 0 && r.value.notices == []
        && r.value.Written() == Outputs(None, None, None)
    {
      var checked := CheckConfig(c, parentExists);
      if checked.Failure? {
        return Failure(checked.error);
      }
      var scanner := new FolderScanner.Init(c, parentExists);
      return Success(scanner);
    }

    /** `CancelRequested`: reads the flag at the next checkpoint. */
    method CancelRequested() returns (cancel: bool)
      modifies this`checkpoints
      ensures checkpoints == old(checkpoints) + 1
      ensures cancel == FlagAt(Progress(), old(checkpoints))
    {
      cancel := hasProgress && |cancelFeed| > 0 &&
        cancelFeed[if checkpoints < |cancelFeed| then checkpoints else |cancelFeed| - 1];
      checkpoints := checkpoints + 1;
    }

    /** `ReportProgress`: nothing happens without a progress collaborator. */
    method ReportProgress(n: Notice)
      modifies this`notices
      ensures notices == (if hasProgress then old(notices) + [n] else old(notices))
    {
      if hasProgress {
        notices := notices + [n];
      }
    }

    /** The body of the file loop of `ScanChildFolder`: the file's length
        goes to its folder, its earliest date and its extension. */
    method AddFile(path: string, file: File)
      requires path in bytesByFolder.bytes
      modifies this`bytesByDate, this`bytesByExtension, this`bytesByFolder
      ensures State() == old(State()).(agg := RecordFile(old(State()).agg, path, file))
    {
      bytesByFolder := Increase(bytesByFolder, path, file.length);
      var earliest := file.lastWrite;
      if file.created < earliest {
        earliest := file.created;
      }
      bytesByDate := Add(bytesByDate, DateOf(earliest), file.length);
      bytesByExtension := Add(bytesByExtension, file.extension, file.length);
    }

    /** The file loop of `ScanChildFolder`: a checkpoint before each file. */
    method ScanFileList(path: string, files: seq<File>)
      requires path in bytesByFolder.bytes
      modifies this`bytesByDate, this`bytesByExtension, this`bytesByFolder, this`checkpoints
      ensures State() == ScanFiles(Progress(), old(State()), path, files)
    {
      ghost var goal := ScanFiles(Progress(), State(), path, files);
      var i := 0;
      while i < |files|
        invariant 0 <= i <= |files|
        invariant path in bytesByFolder.bytes
        invariant ScanFiles(Progress(), State(), path, files[i..]) == goal
      {
        ghost var rest := files[i..];
        ghost var before := State();
        ScanFilesStep(Progress(), before, path, rest);
        var cancel := CancelRequested();
        if cancel { return; }
        assert State() == Tick(before);
        AddFile(path, files[i]);
        assert rest[1..] == files[i + 1..];
        i := i + 1;
      }
    }

    /** `ScanChildFolder`. */
    method ScanChildFolder(folder: Dir)
      modifies this`bytesByDate, this`bytesByExtension, this`bytesByFolder, this`checkpoints, this`notices
      ensures State() == ScanChild(Progress(), old(State()), folder)
    {
      var cancel := Checkpoint(ScanningFiles(folder.path));
      if cancel { return; }
      bytesByFolder := Touch(bytesByFolder, folder.path);
      ScanFileList(folder.path, folder.files);
    }

    /** The body of the folder loop of `ScanRootFolder`: scan one folder,
        then pass a checkpoint. */
    method ScanListedFolder(folder: Dir) returns (cancel: bool)
      modifies this`bytesByDate, this`bytesByExtension, this`bytesByFolder, this`checkpoints, this`notices
      ensures State() == Tick(ScanChild(Progress(), old(State()), folder))
      ensures cancel == FlagAt(Progress(), ScanChild(Progress(), old(State()), folder).pos)
    {
      ScanChildFolder(folder);
      cancel := CancelRequested();
    }

    /** The folder loop of `ScanRootFolder`. */
    method ScanFolderList(folders: seq<Dir>)
      modifies this`bytesByDate, this`bytesByExtension, this`bytesByFolder, this`checkpoints, this`notices
      ensures State() == ScanFolders(Progress(), old(State()), folders)
    {
      ghost var goal := ScanFolders(Progress(), State(), folders);
      var i := 0;
      while i < |folders|
        invariant 0 <= i <= |folders|
        invariant ScanFolders(Progress(), State(), folders[i..]) == goal
      {
        ScanFoldersStep(Progress(), State(), folders[i..]);
        assert folders[i..][1..] == folders[i + 1..];
        var cancel := ScanListedFolder(folders[i]);
        if cancel { return; }
        i := i + 1;
      }
    }

    /** `ScanRootFolder`. */
    method ScanRootFolder(root: Dir)
      modifies this`bytesByDate, this`bytesByExtension, this`bytesByFolder, this`checkpoints, this`notices
      ensures State() == ScanRoot(Progress(), old(State()), root)
    {
      var cancel := Checkpoint(BuildingFolderList(root.path));
      if cancel { return; }
      var folders := BuildFolderList(root, []);
      assert folders == Listing(root);
      ScanChildFolder(root);
      ScanFolderList(folders);
    }

    /** The root loop of `Scan`. */
    method ScanAllRoots()
      modifies this`bytesByDate, this`bytesByExtension, this`bytesByFolder, this`checkpoints, this`notices
      ensures State() == ScanRoots(Progress(), old(State()), roots)
    {
      ghost var goal := ScanRoots(Progress(), State(), roots);
      var i := 0;
      while i < |roots|
        invariant 0 <= i <= |roots|
        invariant ScanRoots(Progress(), State(), roots[i..]) == goal
      {
        ScanRootFolder(roots[i]);
        assert roots[i..][1..] == roots[i + 1..];
        i := i + 1;
      }
    }

    /** `if (CancelRequested()) return;` followed by a notice: passes a
        checkpoint and, unless the flag was set there, reports `n`. */
    method Checkpoint(n: Notice) returns (cancel: bool)
      modifies this`checkpoints, this`notices
      ensures cancel == FlagAt(Progress(), old(checkpoints))
      ensures cancel ==> checkpoints == old(checkpoints) + 1 && notices == old(notices)
      ensures !cancel ==> State() == Notify(Progress(), Tick(old(State())), n)
    {
      cancel := CancelRequested();
      if !cancel {
        ReportProgress(n);
      }
    }

    /** Lines 83-93: the extension report, one row per extension. */
    method WriteExtensionReport()
      modifies this`extensionReport
      ensures extensionReport == Some(ExtensionReport(bytesByExtension))
    {
      var rows := EmitRows(bytesByExtension, None);
      extensionReport := Some(Report(ExtensionHeader, rows));
    }

    /** Lines 97-107: the date report, one row per date. */
    method WriteDateReport()
      modifies this`dateReport
      ensures dateReport == Some(DateReport(bytesByDate))
    {
      var rows := EmitRows(bytesByDate, None);
      dateReport := Some(Report(DateHeader, rows));
    }

    /** Lines 111-124: the folder report, one row per folder at or above the minimum. */
    method WriteFolderReport()
      modifies this`folderReport
      ensures folderReport == Some(FolderReport(bytesByFolder, folderReportMinBytes))
    {
      var rows := EmitRows(bytesByFolder, Some(folderReportMinBytes));
      folderReport := Some(Report(FolderHeader, rows));
    }

    /** Lines 109-126: the folder report after its checkpoint, then "Done". */
    method WriteFromFolderPhase()
      modifies this`checkpoints, this`notices, this`folderReport
      ensures State() == WriteFromFolder(Progress(), folderReportMinBytes, old(State()), old(Written())).0
      ensures Written() == WriteFromFolder(Progress(), folderReportMinBytes, old(State()), old(Written())).1
    {
      var cancel := Checkpoint(WritingFolderReport);
      if cancel { return; }
      WriteFolderReport();
      ReportProgress(Done);
    }

    /** Lines 95-126: the date report after its checkpoint, then the rest. */
    method WriteFromDatePhase()
      modifies this`checkpoints, this`notices, this`dateReport, this`folderReport
      ensures State() == WriteFromDate(Progress(), folderReportMinBytes, old(State()), old(Written())).0
      ensures Written() == WriteFromDate(Progress(), folderReportMinBytes, old(State()), old(Written())).1
    {
      var cancel := Checkpoint(WritingDateReport);
      if cancel { return; }
      WriteDateReport();
      WriteFromFolderPhase();
    }

    /** The report phase of `Scan`: each report after a checkpoint, then "Done". */
    method WriteAllReports()
      modifies this`checkpoints, this`notices, this`extensionReport, this`dateReport, this`folderReport
      ensures State() == WriteReports(Progress(), folderReportMinBytes, old(State()), old(Written())).0
      ensures Written() == WriteReports(Progress(), folderReportMinBytes, old(State()), old(Written())).1
    {
      var cancel := Checkpoint(WritingExtensionReport);
      if cancel { return; }
      WriteExtensionReport();
      WriteFromDatePhase();
    }

    /** Lines 70-79 of `Scan`: "Starting", the tallies cleared, then every root. */
    method ScanPhase()
      modifies this`bytesByDate, this`bytesByExtension, this`bytesByFolder, this`checkpoints, this`notices
      ensures Balanced(CurrentTallies())
      ensures State() == AfterRoots(Progress(), roots, old(State()))
    {
      ghost var before := State();
      ReportProgress(Starting);
      bytesByDate := Empty();
      bytesByExtension := Empty();
      bytesByFolder := Empty();
      ghost var start := State();
      assert start == Notify(Progress(), before, Starting).(agg := Cleared());
      ScanAllRoots();
      ScanRootsBalanced(Progress(), start, roots);
    }

    /** `Scan`: clear the tallies, scan every root, then write the extension,
        date and folder reports, each after a checkpoint. */
    method Scan()
      requires Valid()
      modifies this
      ensures Valid()
      ensures State() == ScanSpec(Progress(), folderReportMinBytes, roots, old(State()), old(Written())).0
      ensures Written() == ScanSpec(Progress(), folderReportMinBytes, roots, old(State()), old(Written())).1
    {
      ScanPhase();
      assert ScanSpec(Progress(), folderReportMinBytes, roots, old(State()), old(Written())) ==
        WriteReports(Progress(), folderReportMinBytes, State(), Written());
      WriteAllReports();
    }
  }
}
