/** The three running tallies of a scan and what visiting folders does to
    them when no cancellation interrupts: the reference the checkpointed
    scan is compared with. */
module Aggregation {
  import opened FolderTree
  import opened Tallies

  /** `_bytesByDate`, `_bytesByExtension` and `_bytesByFolder`. */
  datatype Aggregate = Aggregate(byDate: Tally<nat>, byExtension: Tally<string>, byFolder: Tally<string>)

  /** The three tallies after `Clear`. */
  function Cleared(): (a: Aggregate)
    ensures a.byDate.bytes == map[] && a.byExtension.bytes == map[] && a.byFolder.bytes == map[]
    ensures a.byDate.order == [] && a.byExtension.order == [] && a.byFolder.order == []
  {
    Aggregate(Empty(), Empty(), Empty())
  }

  /** Each tally lists every one of its keys exactly once. */
  ghost predicate WellFormed(a: Aggregate)
  {
    Valid(a.byDate) && Valid(a.byExtension) && Valid(a.byFolder)
  }

  /** The invariant the scan keeps: every tally well formed, and the three
      tallies summing to the same number of bytes. */
  ghost predicate Balanced(a: Aggregate)
  {
    WellFormed(a) && Sum(a.byDate) == Sum(a.byExtension) == Sum(a.byFolder)
  }

  /** Every tally of `r` sums to `n` bytes more than the same tally of `a`. */
  ghost predicate Grew(a: Aggregate, r: Aggregate, n: int)
  {
    && Sum(r.byDate) == Sum(a.byDate) + n
    && Sum(r.byExtension) == Sum(a.byExtension) + n
    && Sum(r.byFolder) == Sum(a.byFolder) + n
  }

  /** Entering a folder: its path gets an entry in the folder tally (0 if new). */
  function EnterFolder(a: Aggregate, path: string): (r: Aggregate)
    ensures AddedAt(a.byFolder, r.byFolder, path, 0)
    ensures path in a.byFolder.bytes ==> r.byFolder.order == a.byFolder.order
    ensures path !in a.byFolder.bytes ==> r.byFolder.order == a.byFolder.order + [path]
    ensures r.byDate == a.byDate && r.byExtension == a.byExtension
  {
    a.(byFolder := Touch(a.byFolder, path))
  }

  /** One file of folder `path`: its length goes to the folder's entry, to
      the entry of its earliest date and to the entry of its extension. */
  function RecordFile(a: Aggregate, path: string, f: File): (r: Aggregate)
    requires path in a.byFolder.bytes
    ensures AddedAt(a.byFolder, r.byFolder, path, f.length)
    ensures AddedAt(a.byDate, r.byDate, EarliestDate(f), f.length)
    ensures AddedAt(a.byExtension, r.byExtension, f.extension, f.length)
    ensures r.byFolder.order == a.byFolder.order
    ensures EarliestDate(f) in a.byDate.bytes ==> r.byDate.order == a.byDate.order
    ensures EarliestDate(f) !in a.byDate.bytes ==> r.byDate.order == a.byDate.order + [EarliestDate(f)]
    ensures f.extension in a.byExtension.bytes ==> r.byExtension.order == a.byExtension.order
    ensures f.extension !in a.byExtension.bytes ==> r.byExtension.order == a.byExtension.order + [f.extension]
  {
    Aggregate(
      Add(a.byDate, EarliestDate(f), f.length),
      Add(a.byExtension, f.extension, f.length),
      Increase(a.byFolder, path, f.length))
  }

  /** Recording the files of folder `path`, in order: the folder's entry
      rises by their combined length and no other folder entry changes. */
  function RecordFiles(a: Aggregate, path: string, files: seq<File>): (r: Aggregate)
    requires path in a.byFolder.bytes
    ensures path in r.byFolder.bytes
    ensures r.byFolder.bytes == a.byFolder.bytes[path := a.byFolder.bytes[path] + FilesBytes(files)]
    decreases |files|
  {
    if files == [] then a
    else RecordFiles(RecordFile(a, path, files[0]), path, files[1..])
  }

  /** A whole visit of one folder (`ScanChildFolder` without cancellation):
      the folder's entry, from 0 if new, rises by the bytes held directly
      in it, and no other folder entry changes. */
  function VisitFolder(a: Aggregate, d: Dir): (r: Aggregate)
    ensures r.byFolder.bytes == a.byFolder.bytes[d.path := Get(a.byFolder, d.path) + FilesBytes(d.files)]
  {
    var entered := EnterFolder(a, d.path);
    RecordFiles(entered, d.path, d.files)
  }

  /** Visiting the folders `ds` one after the other: every folder already
      in the folder tally stays there, and every visited folder gets an entry. */
  function VisitAll(a: Aggregate, ds: seq<Dir>): (r: Aggregate)
    ensures forall k :: k in a.byFolder.bytes ==> k in r.byFolder.bytes
    ensures forall d :: d in ds ==> d.path in r.byFolder.bytes
    decreases |ds|
  {
    if ds == [] then a else VisitAll(VisitFolder(a, ds[0]), ds[1..])
  }

  /** The folder visits of a scan of `roots`: each root once on its own,
      then every folder of its folder list, the root included again. */
  function Visits(roots: seq<Dir>): seq<Dir>
  {
    if roots == [] then [] else [roots[0]] + Listing(roots[0]) + Visits(roots[1..])
  }

  /** The folder lists of `roots`, one after the other. */
  function ListedFolders(roots: seq<Dir>): seq<Dir>
  {
    if roots == [] then [] else Listing(roots[0]) + ListedFolders(roots[1..])
  }

  lemma {:induction false} VisitAllAppend(a: Aggregate, xs: seq<Dir>, ys: seq<Dir>)
    ensures VisitAll(a, xs + ys) == VisitAll(VisitAll(a, xs), ys)
    decreases |xs|
  {
    if xs == [] {
      assert xs + ys == ys;
    } else {
      assert (xs + ys)[1..] == xs[1..] + ys;
      VisitAllAppend(VisitFolder(a, xs[0]), xs[1..], ys);
    }
  }

  /** Recording one file adds its length to each of the three sums. */
  lemma RecordFileGrows(a: Aggregate, path: string, f: File)
    requires WellFormed(a) && path in a.byFolder.bytes
    ensures WellFormed(RecordFile(a, path, f)) && Grew(a, RecordFile(a, path, f), f.length)
  {
    AddAddsToSum(a.byDate, EarliestDate(f), f.length);
    AddAddsToSum(a.byExtension, f.extension, f.length);
    IncreaseAddsToSum(a.byFolder, path, f.length);
  }

  /** Entering a folder changes no sum. */
  lemma EnterFolderKeepsSums(a: Aggregate, path: string)
    requires WellFormed(a)
    ensures WellFormed(EnterFolder(a, path)) && Grew(a, EnterFolder(a, path), 0)
  {
    TouchKeepsSum(a.byFolder, path);
  }

  lemma {:induction false} RecordFilesGrows(a: Aggregate, path: string, files: seq<File>)
    requires WellFormed(a) && path in a.byFolder.bytes
    ensures WellFormed(RecordFiles(a, path, files))
    ensures Grew(a, RecordFiles(a, path, files), FilesBytes(files))
    decreases |files|
  {
    if files != [] {
      RecordFileGrows(a, path, files[0]);
      RecordFilesGrows(RecordFile(a, path, files[0]), path, files[1..]);
    }
  }

  /** Visiting folders adds the bytes held directly in them to each tally. */
  lemma {:induction false} VisitAllGrows(a: Aggregate, ds: seq<Dir>)
    requires WellFormed(a)
    ensures WellFormed(VisitAll(a, ds)) && Grew(a, VisitAll(a, ds), FoldersBytes(ds))
    decreases |ds|
  {
    if ds != [] {
      var d := ds[0];
      EnterFolderKeepsSums(a, d.path);
      RecordFilesGrows(EnterFolder(a, d.path), d.path, d.files);
      VisitAllGrows(VisitFolder(a, d), ds[1..]);
    }
  }

  /** The bytes a scan of `roots` visits: those of every listed folder, and
      those of each root a second time. */
  lemma {:induction false} VisitsBytes(roots: seq<Dir>)
    ensures FoldersBytes(Visits(roots)) == FoldersBytes(ListedFolders(roots)) + FoldersBytes(roots)
  {
    if roots != [] {
      var r := roots[0];
      VisitsBytes(roots[1..]);
      FoldersBytesAppend([r] + Listing(r), Visits(roots[1..]));
      FoldersBytesAppend([r], Listing(r));
      FoldersBytesAppend(Listing(r), ListedFolders(roots[1..]));
      assert FoldersBytes([r]) == FilesBytes(r.files);
    }
  }

  /** A root holding one 300-byte file and no subdirectory is visited
      twice, so its folder entry ends at 600 bytes. */
  lemma RootFilesCountedTwice()
    ensures var root := Dir("r", false, [File(300, ".txt", 0, 0)], []);
      VisitAll(Cleared(), Visits([root])).byFolder.bytes == map["r" := 600]
  {
    var root := Dir("r", false, [File(300, ".txt", 0, 0)], []);
    var f := root.files[0];
    assert ListingAll(root.subdirs) == [];
    assert Visits([root]) == [root, root] by {
      assert Listing(root) == [root];
      assert Visits([root][1..]) == [];
    }
    var e1 := EnterFolder(Cleared(), "r");
    assert e1.byFolder.bytes == map["r" := 0];
    var once := RecordFiles(e1, "r", root.files);
    assert once == RecordFile(e1, "r", f) by {
      assert root.files[1..] == [];
    }
    assert once.byFolder.bytes == map["r" := 300];
    var e2 := EnterFolder(once, "r");
    assert e2.byFolder.bytes == map["r" := 300];
    var twice := RecordFiles(e2, "r", root.files);
    assert twice == RecordFile(e2, "r", f) by {
      assert root.files[1..] == [];
    }
    assert twice.byFolder.bytes == map["r" := 600];
    assert VisitFolder(Cleared(), root) == once;
    assert VisitFolder(once, root) == twice;
    assert VisitAll(twice, []) == twice;
    assert VisitAll(once, [root]) == twice by {
      assert [root][1..] == [];
    }
    assert VisitAll(Cleared(), [root, root]) == twice by {
      assert [root, root][1..] == [root];
    }
  }
}
