# FolderInsights scanner, modelled in Dafny

FolderInsights walks one or more root directories and adds up file sizes in
three tallies:
- by the folder that directly holds each file;
- by the day of the file's earlier timestamp (creation or last write);
- by file extension.

It then writes three CSV reports (extension, date, folder). The folder
report keeps only the folders that reach a minimum size. An optional
progress collaborator receives notices and can ask the scan to stop. The
scanner polls that request at fixed checkpoints.

This project models the `FolderScanner` class. It has three parts.

- **Values the scan reads** (`FolderTree`, `Tallies`, `Aggregation`, `Reports`):
  - a directory tree stands in for the filesystem;
  - a tally is a map from key to bytes plus the order in which its keys were first added;
  - the report rows are the rows each report holds.
- **A specification of the scan** (`ScanModel`): a function per source method,
  checkpoint by checkpoint. The cancellation flag is an oracle: the sequence
  of values it shows at successive checkpoints.
- **The scanner itself** (`Scanner.FolderScanner`): a class whose fields are
  the three tallies, the checkpoint counter, the notices sent and the three
  report files. Its methods run the source's loops. Each is proved to leave
  exactly the state the matching `ScanModel` function gives.

The properties proved about the specification:
- **Balance:** the three tallies stay well formed and sum to the same number
  of bytes, however early a cancellation stops the scan.
- **Uncancelled totals:** without cancellation, the tallies are those of
  visiting every listed folder, plus every root a second time.
- **Repeatability:** without cancellation, a scan does not depend on what the scanner held before it. Whatever the flag does, the tallies start from cleared ones (lines 72-74). A scan cancelled before the report phase (up to line 81) keeps all three old report files; one cancelled at line 95 or 109 keeps the old content only of the reports it did not reach.
- **Report content and order:** what each report holds, and which reports are
  written when the flag is first seen at a given checkpoint.
- **Folder listing:** the folder list holds exactly the directories reachable
  from the root without entering a reparse point.

The code counts each root's own files twice. `BuildFolderList` puts the root
at the head of the folder list (FolderScanner.cs line 184), and
`ScanRootFolder` scans the root on its own (line 139) before it scans the
list (lines 142-146). A scan that visited each directory once would give a
root holding 300 bytes directly an entry of 300; the code gives it 600. Overlapping roots are likewise scanned once per
root. The model follows the code. `Aggregation.RootFilesCountedTwice` and
`ScanModel.UncancelledScan` state the doubled totals.

## Model

| member | source | states |
|---|---|---|
| FolderTree.DateOf | FolderInsights/FolderInsights/FolderScanner.cs:172-173 | `.Date` of a tick count is a midnight, at or before it and less than a day before it |
| FolderTree.EarliestDate | FolderInsights/FolderInsights/FolderScanner.cs:166-172 | a file is tallied under a midnight that is at or before both its creation and last-write times, and less than a day before one of them (the day of the earlier one) |
| FolderTree.Listing | FolderInsights/FolderInsights/FolderScanner.cs:182-191 | the folder list starts with the root itself, whatever the root's attribute, and holds no reparse point after it |
| FolderTree.ListingAll | FolderInsights/FolderInsights/FolderScanner.cs:185-190 | the lists of the subdirectories, in enumeration order, contain no reparse point |
| FolderTree.ListingIsReachable | FolderInsights/FolderInsights/FolderScanner.cs:182-191 | a directory is in the root's folder list if and only if it is the root or lies below it along a path entering no reparse point |
| FolderTree.ListingAllIsReachable | FolderInsights/FolderInsights/FolderScanner.cs:185-190 | a directory is in the subdirectories' lists if and only if some non-reparse subdirectory reaches it |
| FolderTree.BuildFolderList | FolderInsights/FolderInsights/FolderScanner.cs:182-191 | the recursive method appends exactly the root's folder list to the list it is given |
| Tallies.Empty | FolderInsights/FolderInsights/FolderScanner.cs:59-61 | a new or cleared dictionary has no key |
| Tallies.Touch | FolderInsights/FolderInsights/FolderScanner.cs:155 | `if (!ContainsKey(k)) Add(k, 0)` makes `k` present, keeps every value, and appends `k` to the enumeration order only when it was new |
| Tallies.Increase | FolderInsights/FolderInsights/FolderScanner.cs:163 | `+=` on a present key raises that key by `n`, changes no other key, and keeps the order |
| Tallies.Add | FolderInsights/FolderInsights/FolderScanner.cs:172-173 | the add-if-missing-then-`+=` idiom raises `k` by `n` from 0 when absent and changes no other key; the enumeration order is kept when `k` was present and gains `k` at its end when it was not |
| Tallies.TouchKeepsSum | FolderInsights/FolderInsights/FolderScanner.cs:155 | adding a key at 0 keeps the dictionary well formed and its total unchanged |
| Tallies.IncreaseAddsToSum | FolderInsights/FolderInsights/FolderScanner.cs:163 | `+=` on a present key adds exactly `n` to the dictionary's total |
| Tallies.AddAddsToSum | FolderInsights/FolderInsights/FolderScanner.cs:172-178 | the add-if-missing idiom adds exactly `n` to the total and keeps the dictionary well formed |
| Aggregation.Cleared | FolderInsights/FolderInsights/FolderScanner.cs:72-74 | after `Clear` the three dictionaries are empty and enumerate nothing |
| Aggregation.EnterFolder | FolderInsights/FolderInsights/FolderScanner.cs:155 | entering a folder gives its path an entry (0 when new), appends the path to the folder order only when it was new, and leaves the date and extension tallies alone |
| Aggregation.RecordFile | FolderInsights/FolderInsights/FolderScanner.cs:162-178 | one file adds its length to its folder's entry, to its earliest date's entry and to its extension's entry, starting from 0 where absent; every other key keeps its value; the folder order is unchanged, and a new date or extension goes at the end of its order |
| Aggregation.RecordFiles | FolderInsights/FolderInsights/FolderScanner.cs:158-179 | recording a folder's files raises the folder's entry by their combined length and changes no other folder entry |
| Aggregation.VisitFolder | FolderInsights/FolderInsights/FolderScanner.cs:149-180 | a full visit of a folder sets its entry to its old value (0 when new) plus the bytes held directly in it, and changes no other folder entry |
| Aggregation.VisitAll | FolderInsights/FolderInsights/FolderScanner.cs:142-146 | visiting folders in turn keeps every folder entry and gives each visited folder one |
| Aggregation.RecordFileGrows | FolderInsights/FolderInsights/FolderScanner.cs:163-178 | one file raises each of the three totals by its length and keeps every tally well formed |
| Aggregation.EnterFolderKeepsSums | FolderInsights/FolderInsights/FolderScanner.cs:155 | entering a folder changes none of the three totals |
| Aggregation.RecordFilesGrows | FolderInsights/FolderInsights/FolderScanner.cs:158-179 | a folder's files raise each total by their combined length |
| Aggregation.VisitAllGrows | FolderInsights/FolderInsights/FolderScanner.cs:139-146 | visiting folders raises each total by the bytes held directly in them |
| Aggregation.VisitsBytes | FolderInsights/FolderInsights/FolderScanner.cs:136-146 | the folders a scan visits hold the bytes of every listed folder plus each root's bytes a second time |
| Aggregation.RootFilesCountedTwice | FolderInsights/FolderInsights/FolderScanner.cs:136-146 | a root with one 300-byte file and no subdirectory ends with 600 bytes under its path |
| Reports.BytesToGB | FolderInsights/FolderInsights/FolderScanner.cs:193-196 | a stand-alone model of the GB conversion: the GB value times 1073741824 is the byte count, and it is non-negative for a non-negative count; report rows keep the byte count, of which this is the rendered value |
| Reports.RowsListEveryEntry | FolderInsights/FolderInsights/FolderScanner.cs:88-91 | an unfiltered report has one row per key, the i-th row holding the i-th key in enumeration order and its bytes |
| Reports.AtLeastKeeps | FolderInsights/FolderInsights/FolderScanner.cs:116-121 | a row survives the folder threshold if and only if its byte count is at least the threshold |
| Reports.AtLeastAppend | FolderInsights/FolderInsights/FolderScanner.cs:116-121 | the threshold filter keeps the relative order of the rows |
| Reports.FolderReportRows | FolderInsights/FolderInsights/FolderScanner.cs:115-121 | the folder report has a row `(k, v)` if and only if `k` has an entry `v` of at least the minimum |
| Reports.SelectedOfSnoc | FolderInsights/FolderInsights/FolderScanner.cs:116-121 | one more key adds its row at the end of the report, unless it is below the threshold |
| Reports.ExtensionReport | FolderInsights/FolderInsights/FolderScanner.cs:83-93 | the extension report has its header and one row per extension, the i-th holding the i-th extension in enumeration order and its bytes |
| Reports.DateReport | FolderInsights/FolderInsights/FolderScanner.cs:97-107 | the date report has its header and one row per date, the i-th holding the i-th date in enumeration order and its bytes |
| Reports.FolderReport | FolderInsights/FolderInsights/FolderScanner.cs:111-124 | the folder report has its header, and a row is in it if and only if it is a folder row of at least the minimum |
| Reports.EmitRows | FolderInsights/FolderInsights/FolderScanner.cs:88-91 | the row-writing loop emits exactly the report's rows, in enumeration order, with the threshold applied when there is one (also lines 102-105 and 116-121) |
| ScanModel.FlagAt | FolderInsights/FolderInsights/FolderScanner.cs:207-213 | without a progress collaborator the flag is never seen; a flag seen set is set somewhere in the feed |
| ScanModel.Notify | FolderInsights/FolderInsights/FolderScanner.cs:198-205 | with a progress collaborator exactly the given notice is appended; without one nothing is; the tallies and the checkpoint count never change |
| ScanModel.ScanFiles | FolderInsights/FolderInsights/FolderScanner.cs:158-179 | the file loop keeps the folder's entry, sends no notice, and passes at most one checkpoint per file |
| ScanModel.ScanChild | FolderInsights/FolderInsights/FolderScanner.cs:149-180 | a folder scan passes its first checkpoint and at most one more per file; it sends "scanning files" exactly when that checkpoint did not see the flag; a cancellation there leaves the tallies alone, otherwise the folder has an entry |
| ScanModel.ScanFolders | FolderInsights/FolderInsights/FolderScanner.cs:142-146 | the folder loop only advances the checkpoints and only appends notices |
| ScanModel.ScanRoot | FolderInsights/FolderInsights/FolderScanner.cs:129-147 | a root scan passes at least its first checkpoint and only appends notices |
| ScanModel.ScanRoots | FolderInsights/FolderInsights/FolderScanner.cs:76-79 | the root loop only advances the checkpoints and only appends notices |
| ScanModel.WriteFromDate | FolderInsights/FolderInsights/FolderScanner.cs:95-126 | from the date checkpoint on: the extension file is untouched, the date and folder files are untouched or hold their reports, the folder report only after the date report, the tallies unchanged |
| ScanModel.WriteFromFolder | FolderInsights/FolderInsights/FolderScanner.cs:109-126 | from the folder checkpoint on: only the folder file can change, and then to its report; the tallies are unchanged |
| ScanModel.AfterRoots | FolderInsights/FolderInsights/FolderScanner.cs:70-79 | the scan up to the reports only advances the checkpoints and appends notices, "Starting" first |
| ScanModel.ScanSpec | FolderInsights/FolderInsights/FolderScanner.cs:67-127 | each report file keeps its old content or holds its report of the final tallies, each written only after the one before it; at least one checkpoint is passed and notices are only appended |
| ScanModel.WriteReports | FolderInsights/FolderInsights/FolderScanner.cs:81-126 | each report file is either untouched or holds its report of the final tallies; the date report is written only after the extension report, the folder report only after the date report; the tallies are unchanged |
| ScanModel.ScanFilesBalanced | FolderInsights/FolderInsights/FolderScanner.cs:158-179 | the file loop keeps the three totals equal, however early it stops |
| ScanModel.ScanChildBalanced | FolderInsights/FolderInsights/FolderScanner.cs:149-180 | scanning a folder keeps the three totals equal |
| ScanModel.ScanFoldersBalanced | FolderInsights/FolderInsights/FolderScanner.cs:142-146 | the folder loop keeps the three totals equal |
| ScanModel.ScanRootBalanced | FolderInsights/FolderInsights/FolderScanner.cs:129-147 | scanning a root keeps the three totals equal |
| ScanModel.ScanRootsBalanced | FolderInsights/FolderInsights/FolderScanner.cs:76-79 | the root loop keeps the three totals equal, whatever the flag does |
| ScanModel.ScanFilesKeepsEntry | FolderInsights/FolderInsights/FolderScanner.cs:158-179 | the file loop keeps the folder's entry and never lowers it |
| ScanModel.ScanChildLeavesEntry | FolderInsights/FolderInsights/FolderScanner.cs:151-155 | a folder visit past its first checkpoint leaves an entry for the folder even with no file, and never resets an existing one |
| ScanModel.ScanFilesUncancelled | FolderInsights/FolderInsights/FolderScanner.cs:158-179 | without cancellation the file loop records every file |
| ScanModel.ScanChildUncancelled | FolderInsights/FolderInsights/FolderScanner.cs:149-180 | without cancellation a folder scan is a full visit of the folder |
| ScanModel.ScanFoldersUncancelled | FolderInsights/FolderInsights/FolderScanner.cs:142-146 | without cancellation the folder loop visits every folder of the list in order |
| ScanModel.ScanRootUncancelled | FolderInsights/FolderInsights/FolderScanner.cs:129-147 | without cancellation a root scan visits the root, then its whole folder list (root again first) |
| ScanModel.ScanRootsUncancelled | FolderInsights/FolderInsights/FolderScanner.cs:76-79 | without cancellation the root loop makes those visits root after root |
| ScanModel.UncancelledRoots | FolderInsights/FolderInsights/FolderScanner.cs:70-79 | without cancellation the tallies before the reports are the visits from empty of every root and its folder list, balanced, summing to the listed folders' bytes plus each root's bytes again |
| ScanModel.UncancelledScan | FolderInsights/FolderInsights/FolderScanner.cs:67-127 | an uncancelled scan ends with tallies built from empty, balanced, summing to the listed folders' bytes plus each root's bytes again; all three reports are written from them; "Done" is the last notice |
| ScanModel.RepeatedScanIdentical | FolderInsights/FolderInsights/FolderScanner.cs:72-74 | two uncancelled scans of the same roots give the same tallies and reports, whatever the scanner held before |
| ScanModel.FlagStaysSet | FolderInsights/FolderInsights/FolderScanner.cs:207-213 | a flag that stays set once set is seen at every later checkpoint |
| ScanModel.ScanFoldersStopped | FolderInsights/FolderInsights/FolderScanner.cs:142-146 | once a checkpoint of the folder loop sees a flag that stays set, the loop records nothing more and sends no notice |
| ScanModel.ScanRootsStopped | FolderInsights/FolderInsights/FolderScanner.cs:76-79 | once a checkpoint of the root loop sees a flag that stays set, no later root records anything or sends a notice |
| ScanModel.CancelBeforeReports | FolderInsights/FolderInsights/FolderScanner.cs:76-81 | a cancellation seen at any checkpoint up to line 81 writes no report and sends no report notice and no "Done" |
| ScanModel.ReportsBeforeCancel | FolderInsights/FolderInsights/FolderScanner.cs:81-126 | with the flag first seen at report checkpoint k, exactly the first k reports are written, the rest keep their old content, and "Done" is sent only when no checkpoint saw it |
| Scanner.CheckConfig | FolderInsights/FolderInsights/FolderScanner.cs:38-52 | construction succeeds if and only if the roots are non-null and non-empty and each report path is non-null with an existing directory; null or empty roots give their own errors |
| Scanner.FolderScanner.Init | FolderInsights/FolderInsights/FolderScanner.cs:38-62 | a constructed scanner keeps its arguments, starts with empty tallies, and has at least one root |
| Scanner.FolderScanner.Create | FolderInsights/FolderInsights/FolderScanner.cs:31-62 | a scanner is made exactly when the checks pass, otherwise the first failing check's error is raised; a new scanner keeps the roots, report paths, minimum and progress collaborator it was given, and starts with empty tallies, no checkpoint passed, no notice and no report file |
| Scanner.FolderScanner.CancelRequested | FolderInsights/FolderInsights/FolderScanner.cs:207-213 | each poll reads the flag at the next checkpoint |
| Scanner.FolderScanner.ReportProgress | FolderInsights/FolderInsights/FolderScanner.cs:198-205 | a notice is sent only when there is a progress collaborator |
| Scanner.FolderScanner.Checkpoint | FolderInsights/FolderInsights/FolderScanner.cs:151-153 | a poll, followed by the notice only when the flag was not seen (also lines 81-82, 95-96, 109-110, 131-133) |
| Scanner.FolderScanner.AddFile | FolderInsights/FolderInsights/FolderScanner.cs:162-178 | one pass of the file loop body updates the tallies as `RecordFile` says |
| Scanner.FolderScanner.ScanFileList | FolderInsights/FolderInsights/FolderScanner.cs:158-179 | the file loop leaves the state `ScanFiles` gives |
| Scanner.FolderScanner.ScanChildFolder | FolderInsights/FolderInsights/FolderScanner.cs:149-180 | `ScanChildFolder` leaves the state `ScanChild` gives |
| Scanner.FolderScanner.ScanListedFolder | FolderInsights/FolderInsights/FolderScanner.cs:144-145 | one pass of the folder loop: a folder scan, then a poll |
| Scanner.FolderScanner.ScanFolderList | FolderInsights/FolderInsights/FolderScanner.cs:142-146 | the folder loop leaves the state `ScanFolders` gives |
| Scanner.FolderScanner.ScanRootFolder | FolderInsights/FolderInsights/FolderScanner.cs:129-147 | `ScanRootFolder` leaves the state `ScanRoot` gives |
| Scanner.FolderScanner.ScanAllRoots | FolderInsights/FolderInsights/FolderScanner.cs:76-79 | the root loop leaves the state `ScanRoots` gives |
| Scanner.FolderScanner.WriteExtensionReport | FolderInsights/FolderInsights/FolderScanner.cs:83-93 | the extension file receives the extension report of the current tallies |
| Scanner.FolderScanner.WriteDateReport | FolderInsights/FolderInsights/FolderScanner.cs:97-107 | the date file receives the date report of the current tallies |
| Scanner.FolderScanner.WriteFolderReport | FolderInsights/FolderInsights/FolderScanner.cs:111-124 | the folder file receives the folder report of the current tallies and minimum |
| Scanner.FolderScanner.WriteFromFolderPhase | FolderInsights/FolderInsights/FolderScanner.cs:109-126 | the folder report's checkpoint, report and "Done" leave the state and files `WriteFromFolder` gives |
| Scanner.FolderScanner.WriteFromDatePhase | FolderInsights/FolderInsights/FolderScanner.cs:95-126 | the date and folder reports' phase leaves the state and files `WriteFromDate` gives |
| Scanner.FolderScanner.ScanPhase | FolderInsights/FolderInsights/FolderScanner.cs:70-79 | "Starting", the clear and the root loop keep the tallies balanced and leave the state `AfterRoots` gives |
| Scanner.FolderScanner.WriteAllReports | FolderInsights/FolderInsights/FolderScanner.cs:81-126 | the report phase leaves the state and report files `WriteReports` gives |
| Scanner.FolderScanner.Scan | FolderInsights/FolderInsights/FolderScanner.cs:67-127 | `Scan` keeps the tallies balanced and leaves the state and report files `ScanSpec` gives |

## Left out

- The filesystem is a value. `GetFiles`, `GetDirectories`, the attributes and the exceptions they throw are not modelled. A directory that cannot be listed cannot be expressed.
- `Directory.Exists(Path.GetDirectoryName(...))` in the constructor is a predicate passed to `Scanner.CheckConfig`.
- Writing the report files is modelled by what each file would hold: a header and rows of (key, bytes). `File.Create`/`StreamWriter`, the CSV text and its line endings are not modelled. The same goes for the `yyyy-MM-dd` date format and the rendering of the GB value.
- Reports.BytesToGB: exact rational division; the 28-29 significant digits of .NET `decimal` are not modelled. Report rows hold the byte count; `BytesToGB` stands alone as the value each row's GB column would render.
- Tallies.Add: does not model the unchecked 64-bit wrap-around of `long +=`; byte counts are unbounded integers. The same holds for Tallies.Increase.
- The enumeration order of `Dictionary` is taken to be first-insertion order, which .NET observes but does not document. Each tally carries that order explicitly.
- The progress collaborator is reduced to two things: whether one exists, and the values its cancellation flag shows at successive checkpoints. Its locking and events, and the threads that set the flag, are not modelled.
- Progress notices carry no text, clock time or elapsed time. `_startTimeUtc` is not modelled.
- ScanModel.CancelBeforeReports: assumes a flag that stays set once set. A flag that is cleared again lets the scan go on after the checkpoint that saw it; `ScanModel.ReportsBeforeCancel` covers the report phase for any flag.
- `BuildFolderList` returns the extended list instead of appending to a `List` passed by reference. Nothing else holds that list.
- FolderScanner.cs's loops, `Scan`'s root phase and its report phase are split into helper methods (`ScanPhase`, `WriteAllReports`, `WriteFromDatePhase`, `WriteFromFolderPhase` and one method per report). They run the same statements in the same order.
- The list of roots is copied into the scanner when it is constructed. The constructor keeps a reference to the caller's `IList` (line 40), so a caller that later changes or clears that list changes what `Scan` walks; that aliasing is not modelled.
- The three report paths are taken to be distinct files. The constructor does not check this, and with two equal paths the later `File.Create` (line 97 or 111) overwrites the earlier report; the model keeps three separate outputs.
- Each root is taken to be a directory. The constructor rejects only a null or empty list (lines 38-39), so a list holding a null entry is accepted, and `Scan` then fails with a null reference at line 133 (`root.FullName`) unless the checkpoint at line 131 sees the flag first. `Scanner.CheckConfig`'s success therefore does not promise a clean scan for such a list, which a `seq<Dir>` cannot express.
