/** The directory trees the scanner walks, with the filesystem replaced by a value,
    and the depth-first folder listing built from them. */
module FolderTree {

  /** .NET `DateTime` ticks (100 ns) in one day. */
  const TicksPerDay: nat := 864_000_000_000

  /** What `FileInfo` reports about one file: `Length`, `Extension`
      (with its leading dot, "" when there is none), `CreationTimeUtc`
      and `LastWriteTimeUtc` as ticks. */
  datatype File = File(length: nat, extension: string, created: nat, lastWrite: nat)

  /** A directory: its full name, whether it carries the reparse-point
      attribute, and what `GetFiles` and `GetDirectories` return for it,
      in enumeration order. */
  datatype Dir = Dir(path: string, isReparse: bool, files: seq<File>, subdirs: seq<Dir>)

  /** `DateTime.Date`: the midnight that opens the day holding tick `t`. */
  function DateOf(t: nat): (d: nat)
    ensures d % TicksPerDay == 0
    ensures d <= t < d + TicksPerDay
  {
    t - t % TicksPerDay
  }

  /** The date a file is tallied under: the day of the earlier of its
      creation and last-write times. */
  function EarliestDate(f: File): (d: nat)
    ensures d % TicksPerDay == 0
    ensures d <= f.created && d <= f.lastWrite
    ensures f.created < d + TicksPerDay || f.lastWrite < d + TicksPerDay
  {
    var earliest := if f.created < f.lastWrite then f.created else f.lastWrite;
    DateOf(earliest)
  }

  /** Total length of a sequence of files. */
  function FilesBytes(files: seq<File>): nat
  {
    if files == [] then 0 else files[0].length + FilesBytes(files[1..])
  }

  /** Bytes held directly in each of the folders (not in their descendants). */
  function FoldersBytes(ds: seq<Dir>): nat
  {
    if ds == [] then 0 else FilesBytes(ds[0].files) + FoldersBytes(ds[1..])
  }

  lemma {:induction false} FoldersBytesAppend(a: seq<Dir>, b: seq<Dir>)
    ensures FoldersBytes(a + b) == FoldersBytes(a) + FoldersBytes(b)
  {
    if a != [] {
      assert (a + b)[1..] == a[1..] + b;
      FoldersBytesAppend(a[1..], b);
    } else {
      assert a + b == b;
    }
  }

  /** The folder list for `d`: `d` itself, then the list of every
      subdirectory that is not a reparse point, in enumeration order. */
  function Listing(d: Dir): (r: seq<Dir>)
    ensures |r| >= 1 && r[0] == d
    ensures forall i :: 1 <= i < |r| ==> !r[i].isReparse
    decreases d
  {
    [d] + ListingAll(d.subdirs)
  }

  /** The concatenated folder lists of the non-reparse directories of `ds`. */
  function ListingAll(ds: seq<Dir>): (r: seq<Dir>)
    ensures forall i :: 0 <= i < |r| ==> !r[i].isReparse
    decreases ds
  {
    if ds == [] then []
    else
      var last := ds[|ds| - 1];
      ListingAll(ds[..|ds| - 1]) + (if last.isReparse then [] else Listing(last))
  }

  /** `x` is `d`, or lies below `d` along a path that enters no reparse point. */
  ghost predicate Reaches(d: Dir, x: Dir)
    decreases d
  {
    x == d ||
    exists i :: 0 <= i < |d.subdirs| && !d.subdirs[i].isReparse && Reaches(d.subdirs[i], x)
  }

  /** Some non-reparse directory of `ds` reaches `x`. */
  ghost predicate ReachedFrom(ds: seq<Dir>, x: Dir)
  {
    exists i :: 0 <= i < |ds| && !ds[i].isReparse && Reaches(ds[i], x)
  }

  /** The folder list holds exactly the directories reachable from the root
      without passing through a reparse point: a reparse point's subtree is
      never listed, and the root is listed whatever its own attribute. */
  lemma {:induction false} ListingIsReachable(d: Dir, x: Dir)
    ensures x in Listing(d) <==> Reaches(d, x)
    decreases d, 1
  {
    ListingAllIsReachable(d.subdirs, x);
    assert ReachedFrom(d.subdirs, x) <==>
      exists i :: 0 <= i < |d.subdirs| && !d.subdirs[i].isReparse && Reaches(d.subdirs[i], x);
  }

  lemma {:induction false} ListingAllIsReachable(ds: seq<Dir>, x: Dir)
    ensures x in ListingAll(ds) <==> ReachedFrom(ds, x)
    decreases ds, 0
  {
    if ds != [] {
      var n := |ds| - 1;
      ListingAllIsReachable(ds[..n], x);
      if !ds[n].isReparse {
        ListingIsReachable(ds[n], x);
      }
      ReachedFromSnoc(ds, x);
    }
  }

  /** Splitting off the last directory of `ds`. */
  lemma ReachedFromSnoc(ds: seq<Dir>, x: Dir)
    requires ds != []
    ensures ReachedFrom(ds, x) <==>
      ReachedFrom(ds[..|ds| - 1], x) || (!ds[|ds| - 1].isReparse && Reaches(ds[|ds| - 1], x))
  {
  }

  /** `BuildFolderList`: appends the folder list of `root` to `folderList`,
      recursing into each subdirectory that is not a reparse point. */
  method BuildFolderList(root: Dir, folderList: seq<Dir>) returns (result: seq<Dir>)
    ensures result == folderList + Listing(root)
    decreases root
  {
    result := folderList + [root];
    var folders := root.subdirs;
    var i := 0;
    while i < |folders|
      invariant 0 <= i <= |folders|
      invariant result == folderList + [root] + ListingAll(folders[..i])
    {
      var folder := folders[i];
      assert folders[..i + 1][..i] == folders[..i];
      if !folder.isReparse {
        result := BuildFolderList(folder, result);
      }
      i := i + 1;
    }
    assert folders[..i] == folders;
  }
}
