/** What a scan does, checkpoint by checkpoint, as functions of the state
    before it: the specification the `FolderScanner` methods are proved
    against, and the properties of a scan proved about it. */
module ScanModel {
  import opened Wrappers
  import opened FolderTree
  import opened Tallies
  import opened Aggregation
  import opened Reports

  /** The progress collaborator as the scan sees it: whether there is one
      at all, and the value its `RequestCancel` flag shows at each
      successive checkpoint. Past the end of `feed` the flag keeps its last
      value; an empty feed is a flag nobody sets. */
  datatype Env = Env(hasProgress: bool, feed: seq<bool>)

  /** `CancelRequested` at the checkpoint numbered `k`: false whenever there
      is no progress collaborator. */
  function FlagAt(env: Env, k: nat): (cancel: bool)
    ensures cancel ==> env.hasProgress
    ensures cancel ==> exists i :: 0 <= i < |env.feed| && env.feed[i]
  {
    env.hasProgress && |env.feed| > 0 &&
    env.feed[if k < |env.feed| then k else |env.feed| - 1]
  }

  /** A flag that, once set, stays set. */
  ghost predicate Monotone(env: Env)
  {
    forall i, j :: 0 <= i <= j < |env.feed| && env.feed[i] ==> env.feed[j]
  }

  /** No checkpoint can observe a cancellation. */
  ghost predicate NeverCancels(env: Env)
  {
    !env.hasProgress || forall i :: 0 <= i < |env.feed| ==> !env.feed[i]
  }

  /** The progress messages, without their text and times. */
  datatype Notice =
    | Starting
    | BuildingFolderList(root: string)
    | ScanningFiles(folder: string)
    | WritingExtensionReport
    | WritingDateReport
    | WritingFolderReport
    | Done

  /** The scanner's state during a scan: its tallies, how many checkpoints
      it has passed, and the notices it has sent. */
  datatype St = St(agg: Aggregate, pos: nat, log: seq<Notice>)

  /** What the three report files hold: `None` while this scanner has not
      written one; a write replaces the file's content. */
  datatype Outputs = Outputs(
    extension: Option<Report<string>>,
    date: Option<Report<nat>>,
    folder: Option<Report<string>>)

  /** Passing a checkpoint. */
  function Tick(st: St): St
  {
    st.(pos := st.pos + 1)
  }

  /** `ReportProgress`: with a progress collaborator, exactly `n` is
      appended to the notices; without one, nothing happens. The tallies
      and the checkpoint count never change. */
  function Notify(env: Env, st: St, n: Notice): (r: St)
    ensures r.agg == st.agg && r.pos == st.pos
    ensures st.log <= r.log && |r.log| == |st.log| + (if env.hasProgress then 1 else 0)
    ensures env.hasProgress ==> r.log[|st.log|] == n
  {
    if env.hasProgress then st.(log := st.log + [n]) else st
  }

  /** The file loop of `ScanChildFolder`: a checkpoint before each file.
      It sends no notice, passes at most one checkpoint per file, and keeps
      the folder's entry. */
  function ScanFiles(env: Env, st: St, path: string, files: seq<File>): (r: St)
    requires path in st.agg.byFolder.bytes
    ensures path in r.agg.byFolder.bytes
    ensures r.log == st.log
    ensures st.pos <= r.pos <= st.pos + |files|
    decreases |files|
  {
    if files == [] then st
    else if FlagAt(env, st.pos) then Tick(st)
    else ScanFiles(env, Tick(st).(agg := RecordFile(st.agg, path, files[0])), path, files[1..])
  }

  /** `ScanChildFolder`: a checkpoint, then the folder's entry, then its
      files. A cancellation at the first checkpoint leaves the tallies
      alone; otherwise the folder has an entry afterwards. At most one
      notice is sent, and one checkpoint per file besides the first. */
  function ScanChild(env: Env, st: St, d: Dir): (r: St)
    ensures st.pos < r.pos <= st.pos + 1 + |d.files|
    ensures r.log == st.log + (if env.hasProgress && !FlagAt(env, st.pos) then [ScanningFiles(d.path)] else [])
    ensures FlagAt(env, st.pos) ==> r.agg == st.agg
    ensures !FlagAt(env, st.pos) ==> d.path in r.agg.byFolder.bytes
  {
    if FlagAt(env, st.pos) then Tick(st)
    else
      var s := Notify(env, Tick(st), ScanningFiles(d.path));
      ScanFiles(env, s.(agg := EnterFolder(s.agg, d.path)), d.path, d.files)
  }

  /** The folder loop of `ScanRootFolder`: a checkpoint after each folder.
      Checkpoints only advance and notices are only appended. */
  function ScanFolders(env: Env, st: St, ds: seq<Dir>): (r: St)
    ensures st.pos <= r.pos && st.log <= r.log
    decreases |ds|
  {
    if ds == [] then st
    else
      var s := ScanChild(env, st, ds[0]);
      if FlagAt(env, s.pos) then Tick(s) else ScanFolders(env, Tick(s), ds[1..])
  }

  /** `ScanRootFolder`: a checkpoint, the folder list, the root as a child,
      then every folder of the list (the root first among them). */
  function ScanRoot(env: Env, st: St, root: Dir): (r: St)
    ensures st.pos < r.pos && st.log <= r.log
  {
    if FlagAt(env, st.pos) then Tick(st)
    else
      var s := Notify(env, Tick(st), BuildingFolderList(root.path));
      ScanFolders(env, ScanChild(env, s, root), Listing(root))
  }

  /** The root loop of `Scan`. */
  function ScanRoots(env: Env, st: St, roots: seq<Dir>): (r: St)
    ensures st.pos <= r.pos && st.log <= r.log
    decreases |roots|
  {
    if roots == [] then st else ScanRoots(env, ScanRoot(env, st, roots[0]), roots[1..])
  }

  /** One step of the file loop, spelled out for the loop that implements it. */
  lemma ScanFilesStep(env: Env, st: St, path: string, files: seq<File>)
    requires path in st.agg.byFolder.bytes && files != []
    ensures ScanFiles(env, st, path, files) ==
      if FlagAt(env, st.pos) then Tick(st)
      else ScanFiles(env, Tick(st).(agg := RecordFile(st.agg, path, files[0])), path, files[1..])
  {
  }

  /** One step of the folder loop, spelled out for the loop that implements it. */
  lemma ScanFoldersStep(env: Env, st: St, ds: seq<Dir>)
    requires ds != []
    ensures ScanFolders(env, st, ds) ==
      var s := ScanChild(env, st, ds[0]);
      if FlagAt(env, s.pos) then Tick(s) else ScanFolders(env, Tick(s), ds[1..])
  {
  }

  /** The report phase of `Scan`: a checkpoint before each of the three
      reports, then "Done". A report written stays written. */
  function WriteReports(env: Env, minBytes: int, st: St, out: Outputs): (r: (St, Outputs))
    ensures r.1.extension == out.extension || r.1.extension == Some(ExtensionReport(st.agg.byExtension))
    ensures r.1.date == out.date || r.1.date == Some(DateReport(st.agg.byDate))
    ensures r.1.folder == out.folder || r.1.folder == Some(FolderReport(st.agg.byFolder, minBytes))
    ensures r.1.date != out.date ==> r.1.extension == Some(ExtensionReport(st.agg.byExtension))
    ensures r.1.folder != out.folder ==> r.1.date == Some(DateReport(st.agg.byDate))
    ensures r.0.agg == st.agg
    ensures st.pos < r.0.pos && st.log <= r.0.log
  {
    if FlagAt(env, st.pos) then (Tick(st), out)
    else
      var s := Notify(env, Tick(st), WritingExtensionReport);
      WriteFromDate(env, minBytes, s, out.(extension := Some(ExtensionReport(st.agg.byExtension))))
  }

  /** The report phase from the date report's checkpoint on. */
  function WriteFromDate(env: Env, minBytes: int, st: St, out: Outputs): (r: (St, Outputs))
    ensures r.1.extension == out.extension
    ensures r.1.date == out.date || r.1.date == Some(DateReport(st.agg.byDate))
    ensures r.1.folder == out.folder || r.1.folder == Some(FolderReport(st.agg.byFolder, minBytes))
    ensures r.1.folder != out.folder ==> r.1.date == Some(DateReport(st.agg.byDate))
    ensures r.0.agg == st.agg
    ensures st.pos < r.0.pos && st.log <= r.0.log
  {
    if FlagAt(env, st.pos) then (Tick(st), out)
    else
      var s := Notify(env, Tick(st), WritingDateReport);
      WriteFromFolder(env, minBytes, s, out.(date := Some(DateReport(st.agg.byDate))))
  }

  /** The report phase from the folder report's checkpoint on. */
  function WriteFromFolder(env: Env, minBytes: int, st: St, out: Outputs): (r: (St, Outputs))
    ensures r.1.extension == out.extension && r.1.date == out.date
    ensures r.1.folder == out.folder || r.1.folder == Some(FolderReport(st.agg.byFolder, minBytes))
    ensures r.0.agg == st.agg
    ensures st.pos < r.0.pos && st.log <= r.0.log
  {
    if FlagAt(env, st.pos) then (Tick(st), out)
    else
      var s := Notify(env, Tick(st), WritingFolderReport);
      (Notify(env, s, Done), out.(folder := Some(FolderReport(st.agg.byFolder, minBytes))))
  }

  /** The state after the root loop of `Scan`: "Starting", the tallies
      cleared, then every root. "Starting" is the first notice of the scan. */
  function AfterRoots(env: Env, roots: seq<Dir>, st: St): (r: St)
    ensures st.pos <= r.pos && st.log <= r.log
    ensures env.hasProgress ==> |r.log| > |st.log| && r.log[|st.log|] == Starting
  {
    var s := Notify(env, st, Starting);
    ScanRoots(env, s.(agg := Cleared()), roots)
  }

  /** `Scan`: each report file either keeps what it held or holds its
      report of the final tallies; a report is written only after the one
      before it; at least one checkpoint is passed, and notices are only
      appended. */
  function ScanSpec(env: Env, minBytes: int, roots: seq<Dir>, st: St, out: Outputs): (r: (St, Outputs))
    ensures r.1.extension == out.extension || r.1.extension == Some(ExtensionReport(r.0.agg.byExtension))
    ensures r.1.date == out.date || r.1.date == Some(DateReport(r.0.agg.byDate))
    ensures r.1.folder == out.folder || r.1.folder == Some(FolderReport(r.0.agg.byFolder, minBytes))
    ensures r.1.date != out.date ==> r.1.extension == Some(ExtensionReport(r.0.agg.byExtension))
    ensures r.1.folder != out.folder ==> r.1.date == Some(DateReport(r.0.agg.byDate))
    ensures st.pos < r.0.pos && st.log <= r.0.log
  {
    WriteReports(env, minBytes, AfterRoots(env, roots, st), out)
  }

  // ---------------------------------------------------------------------
  // The tallies stay balanced, whatever the cancellation flag does.

  lemma {:induction false} ScanFilesBalanced(env: Env, st: St, path: string, files: seq<File>)
    requires Balanced(st.agg) && path in st.agg.byFolder.bytes
    ensures Balanced(ScanFiles(env, st, path, files).agg)
    decreases |files|
  {
    if files != [] && !FlagAt(env, st.pos) {
      RecordFileGrows(st.agg, path, files[0]);
      ScanFilesBalanced(env, Tick(st).(agg := RecordFile(st.agg, path, files[0])), path, files[1..]);
    }
  }

  lemma ScanChildBalanced(env: Env, st: St, d: Dir)
    requires Balanced(st.agg)
    ensures Balanced(ScanChild(env, st, d).agg)
  {
    if !FlagAt(env, st.pos) {
      var s := Notify(env, Tick(st), ScanningFiles(d.path));
      EnterFolderKeepsSums(s.agg, d.path);
      ScanFilesBalanced(env, s.(agg := EnterFolder(s.agg, d.path)), d.path, d.files);
    }
  }

  lemma {:induction false} ScanFoldersBalanced(env: Env, st: St, ds: seq<Dir>)
    requires Balanced(st.agg)
    ensures Balanced(ScanFolders(env, st, ds).agg)
    decreases |ds|
  {
    if ds != [] {
      ScanChildBalanced(env, st, ds[0]);
      var s := ScanChild(env, st, ds[0]);
      if !FlagAt(env, s.pos) {
        ScanFoldersBalanced(env, Tick(s), ds[1..]);
      }
    }
  }

  lemma ScanRootBalanced(env: Env, st: St, root: Dir)
    requires Balanced(st.agg)
    ensures Balanced(ScanRoot(env, st, root).agg)
  {
    if !FlagAt(env, st.pos) {
      var s := Notify(env, Tick(st), BuildingFolderList(root.path));
      ScanChildBalanced(env, s, root);
      ScanFoldersBalanced(env, ScanChild(env, s, root), Listing(root));
    }
  }

  /** However early a cancellation stops it, every prefix of the scan leaves
      the date, extension and folder tallies with equal sums. */
  lemma {:induction false} ScanRootsBalanced(env: Env, st: St, roots: seq<Dir>)
    requires Balanced(st.agg)
    ensures Balanced(ScanRoots(env, st, roots).agg)
    decreases |roots|
  {
    if roots != [] {
      ScanRootBalanced(env, st, roots[0]);
      ScanRootsBalanced(env, ScanRoot(env, st, roots[0]), roots[1..]);
    }
  }

  /** The file loop keeps the folder's entry and never lowers it. */
  lemma {:induction false} ScanFilesKeepsEntry(env: Env, st: St, path: string, files: seq<File>)
    requires path in st.agg.byFolder.bytes
    ensures path in ScanFiles(env, st, path, files).agg.byFolder.bytes
    ensures ScanFiles(env, st, path, files).agg.byFolder.bytes[path] >= st.agg.byFolder.bytes[path]
    decreases |files|
  {
    if files != [] && !FlagAt(env, st.pos) {
      ScanFilesKeepsEntry(env, Tick(st).(agg := RecordFile(st.agg, path, files[0])), path, files[1..]);
    }
  }

  /** A folder visit that passes its first checkpoint leaves an entry for
      the folder, even when it has no file, and a second visit of the same
      path adds to the entry instead of resetting it. */
  lemma ScanChildLeavesEntry(env: Env, st: St, d: Dir)
    requires !FlagAt(env, st.pos)
    ensures d.path in ScanChild(env, st, d).agg.byFolder.bytes
    ensures ScanChild(env, st, d).agg.byFolder.bytes[d.path] >= Get(st.agg.byFolder, d.path)
  {
    var s := Notify(env, Tick(st), ScanningFiles(d.path));
    ScanFilesKeepsEntry(env, s.(agg := EnterFolder(s.agg, d.path)), d.path, d.files);
  }

  // ---------------------------------------------------------------------
  // Without cancellation the scan is the plain sequence of folder visits.

  lemma {:induction false} ScanFilesUncancelled(env: Env, st: St, path: string, files: seq<File>)
    requires NeverCancels(env) && path in st.agg.byFolder.bytes
    ensures ScanFiles(env, st, path, files).agg == RecordFiles(st.agg, path, files)
    decreases |files|
  {
    if files != [] {
      ScanFilesUncancelled(env, Tick(st).(agg := RecordFile(st.agg, path, files[0])), path, files[1..]);
    }
  }

  lemma ScanChildUncancelled(env: Env, st: St, d: Dir)
    requires NeverCancels(env)
    ensures ScanChild(env, st, d).agg == VisitFolder(st.agg, d)
  {
    var s := Notify(env, Tick(st), ScanningFiles(d.path));
    ScanFilesUncancelled(env, s.(agg := EnterFolder(s.agg, d.path)), d.path, d.files);
  }

  lemma {:induction false} ScanFoldersUncancelled(env: Env, st: St, ds: seq<Dir>)
    requires NeverCancels(env)
    ensures ScanFolders(env, st, ds).agg == VisitAll(st.agg, ds)
    decreases |ds|
  {
    if ds != [] {
      ScanChildUncancelled(env, st, ds[0]);
      ScanFoldersUncancelled(env, Tick(ScanChild(env, st, ds[0])), ds[1..]);
    }
  }

  lemma ScanRootUncancelled(env: Env, st: St, root: Dir)
    requires NeverCancels(env)
    ensures ScanRoot(env, st, root).agg == VisitAll(st.agg, [root] + Listing(root))
  {
    var s := Notify(env, Tick(st), BuildingFolderList(root.path));
    ScanChildUncancelled(env, s, root);
    ScanFoldersUncancelled(env, ScanChild(env, s, root), Listing(root));
    VisitAllAppend(st.agg, [root], Listing(root));
    assert VisitAll(st.agg, [root]) == VisitFolder(st.agg, root) by {
      assert [root][1..] == [];
    }
  }

  /** Without cancellation, the root loop visits the root and then every
      folder of its folder list, root by root. */
  lemma {:induction false} ScanRootsUncancelled(env: Env, st: St, roots: seq<Dir>)
    requires NeverCancels(env)
    ensures ScanRoots(env, st, roots).agg == VisitAll(st.agg, Visits(roots))
    decreases |roots|
  {
    if roots != [] {
      var r := roots[0];
      ScanRootUncancelled(env, st, r);
      ScanRootsUncancelled(env, ScanRoot(env, st, r), roots[1..]);
      VisitAllAppend(st.agg, [r] + Listing(r), Visits(roots[1..]));
    }
  }

  // ---------------------------------------------------------------------
  // Whole scans.

  /** The root loop of an uncancelled scan: the tallies are those of
      visiting every folder of every folder list plus every root once more,
      starting from nothing; they are balanced, and each sums to the bytes
      held directly in the listed folders plus those held directly in the
      roots. */
  lemma UncancelledRoots(env: Env, roots: seq<Dir>, st: St)
    requires NeverCancels(env)
    ensures var a := AfterRoots(env, roots, st);
      && a.agg == VisitAll(Cleared(), Visits(roots))
      && Balanced(a.agg)
      && Sum(a.agg.byFolder) == FoldersBytes(ListedFolders(roots)) + FoldersBytes(roots)
  {
    var s := Notify(env, st, Starting).(agg := Cleared());
    ScanRootsUncancelled(env, s, roots);
    VisitAllGrows(Cleared(), Visits(roots));
    VisitsBytes(roots);
  }

  /** An uncancelled scan: the tallies of `UncancelledRoots`; all three
      reports are written from them; and "Done" is the last notice sent. */
  lemma UncancelledScan(env: Env, minBytes: int, roots: seq<Dir>, st: St, out: Outputs)
    requires NeverCancels(env)
    ensures var (s, o) := ScanSpec(env, minBytes, roots, st, out);
      && s.agg == VisitAll(Cleared(), Visits(roots))
      && Balanced(s.agg)
      && Sum(s.agg.byFolder) == FoldersBytes(ListedFolders(roots)) + FoldersBytes(roots)
      && o == Outputs(
           Some(ExtensionReport(s.agg.byExtension)),
           Some(DateReport(s.agg.byDate)),
           Some(FolderReport(s.agg.byFolder, minBytes)))
      && (env.hasProgress ==> s.log[|s.log| - 1] == Done)
  {
    var a := AfterRoots(env, roots, st);
    UncancelledRoots(env, roots, st);
    assert forall j :: a.pos <= j < a.pos + 3 ==> !FlagAt(env, j);
    ReportsBeforeCancel(env, minBytes, a, out, 3);
    assert ScanSpec(env, minBytes, roots, st, out) == WriteReports(env, minBytes, a, out);
  }

  /** Two uncancelled scans of the same roots give the same tallies and the
      same reports, whatever the scanner held before each: `Scan` starts
      from cleared tallies. */
  lemma RepeatedScanIdentical(env: Env, minBytes: int, roots: seq<Dir>, st1: St, out1: Outputs, st2: St, out2: Outputs)
    requires NeverCancels(env)
    ensures ScanSpec(env, minBytes, roots, st1, out1).0.agg == ScanSpec(env, minBytes, roots, st2, out2).0.agg
    ensures ScanSpec(env, minBytes, roots, st1, out1).1 == ScanSpec(env, minBytes, roots, st2, out2).1
  {
    UncancelledScan(env, minBytes, roots, st1, out1);
    UncancelledScan(env, minBytes, roots, st2, out2);
  }

  lemma FlagStaysSet(env: Env, k: nat, j: nat)
    requires Monotone(env) && k <= j && FlagAt(env, k)
    ensures FlagAt(env, j)
  {
    var n := |env.feed|;
    var a := if k < n then k else n - 1;
    var b := if j < n then j else n - 1;
    assert a <= b;
  }

  /** Once a checkpoint of the folder loop sees a flag that stays set, the
      loop records no further file and sends no further notice. */
  lemma ScanFoldersStopped(env: Env, st: St, ds: seq<Dir>)
    requires Monotone(env) && FlagAt(env, st.pos)
    ensures ScanFolders(env, st, ds).agg == st.agg
    ensures ScanFolders(env, st, ds).log == st.log
  {
    if ds != [] {
      FlagStaysSet(env, st.pos, st.pos + 1);
    }
  }

  /** Once a checkpoint of the root loop sees a flag that stays set, no
      later root records a file or sends a notice: each of them stops at
      its first checkpoint. */
  lemma {:induction false} ScanRootsStopped(env: Env, st: St, roots: seq<Dir>)
    requires Monotone(env) && FlagAt(env, st.pos)
    ensures ScanRoots(env, st, roots).agg == st.agg
    ensures ScanRoots(env, st, roots).log == st.log
    decreases |roots|
  {
    if roots != [] {
      FlagStaysSet(env, st.pos, st.pos + 1);
      ScanRootsStopped(env, ScanRoot(env, st, roots[0]), roots[1..]);
    }
  }

  /** A cancellation observed at any checkpoint of the root loop, with a flag
      that stays set once set, writes no report and sends neither a
      report notice nor "Done". */
  lemma CancelBeforeReports(env: Env, minBytes: int, roots: seq<Dir>, st: St, out: Outputs, k: nat)
    requires Monotone(env)
    requires k <= AfterRoots(env, roots, st).pos && FlagAt(env, k)
    ensures ScanSpec(env, minBytes, roots, st, out).1 == out
    ensures ScanSpec(env, minBytes, roots, st, out).0.log == AfterRoots(env, roots, st).log
  {
    FlagStaysSet(env, k, AfterRoots(env, roots, st).pos);
  }

  /** The notices of a report phase that runs to completion. */
  const ReportNotices: seq<Notice> := [WritingExtensionReport, WritingDateReport, WritingFolderReport, Done]

  /** The report phase when the flag is first seen at its checkpoint `k`
      (0 before the extension report, 1 before the date report, 2 before
      the folder report; 3 means never): exactly the reports before that
      checkpoint are written, each from the tallies as the roots left them;
      the others keep what they held; and "Done" is sent only when no
      checkpoint saw the flag. */
  lemma ReportsBeforeCancel(env: Env, minBytes: int, st: St, out: Outputs, k: nat)
    requires k <= 3
    requires forall j :: st.pos <= j < st.pos + k ==> !FlagAt(env, j)
    requires k < 3 ==> FlagAt(env, st.pos + k)
    ensures var (s, o) := WriteReports(env, minBytes, st, out);
      && o.extension == (if k >= 1 then Some(ExtensionReport(st.agg.byExtension)) else out.extension)
      && o.date == (if k >= 2 then Some(DateReport(st.agg.byDate)) else out.date)
      && o.folder == (if k >= 3 then Some(FolderReport(st.agg.byFolder, minBytes)) else out.folder)
      && s.pos == st.pos + (if k < 3 then k + 1 else 3)
      && s.log == st.log + (if env.hasProgress then ReportNotices[..if k < 3 then k else 4] else [])
  {
  }
}
