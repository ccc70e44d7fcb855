# YFCC-15M download-list builder, modelled in Dafny

`download-yfcc-15m.py` prepares the download of the YFCC-15M image subset. It reads a
file of image checksums, one per line and sorted. For each checksum it derives the
relative path `dir/subdir/checksum.jpg` (`dir` is the first three characters of the
checksum, `subdir` the next three). Each line then has exactly one outcome, decided in
this order:

- **skip**: the image already exists under the destination root;
- **link**: the image exists under the mirrored source root `../<root>`, so it is hard-linked into place;
- **append**: otherwise the relative path is appended to a download list named `dir` in the list directory.

The script keeps one list handle open at a time. It closes the handle whenever the
partition key `dir` changes and reopens one lazily, only when a line is appended. It
counts skipped, linked, appended and total lines. Before reading anything it fails if
the checksum file or the list directory does not exist.

The model has six modules:

- `Paths` (paths.dfy) holds the pure path derivation:
  - `rstrip` with Python's whitespace set;
  - Python slicing, clamped at the end of the string;
  - the relative path and a function that recovers the checksum from it;
  - POSIX `os.path.join`;
  - the mirrored source root.
- `Manifest` (manifest.dfy) holds the script's state and its reference semantics.
  - The state is a value: the last key, the handle, a log of list opens, the four counters, the files and the lists.
  - The filesystem is a map from path to inode. A path exists as a regular file when it is a key, and a hard link copies the source's inode.
  - Every list is a sequence of records.
  - `Step` is one iteration of the loop and `Pass` runs it over all lines. The lemmas in this module state what those promise.
- `Handles` (handles.dfy) proves that the handle is opened only for appends. When the input is sorted, or at least grouped by partition key, each list file is opened at most once.
- `Builder` (builder.dfy) is the script body as one method: the two start-up checks, then a `for` loop that updates the script's own variables. It is proved equal to `Finish(Pass(...))`, and it inherits every property proved about `Pass`.
- `Scenarios` (scenarios.dfy) works through two concrete runs over three checksums.
- `Wrappers` (wrappers.dfy) holds the `Option` and `Result` types.

## Model

| member | source | states |
|---|---|---|
| Paths.RStripSpec | download-yfcc-15m.py:48 | The stripped line is a prefix of the line, ends in a non-whitespace character (or is empty), and everything removed is whitespace. |
| Paths.RStripUnique | download-yfcc-15m.py:48 | Those three properties determine the result of `rstrip()` uniquely. |
| Paths.RStripLine | download-yfcc-15m.py:43-48 | A checksum followed by its line terminator (or any trailing whitespace) strips back to exactly the checksum. |
| Paths.KeysSpec | download-yfcc-15m.py:49-50 | `dir` is the first min(len, 3) characters and `subdir` the characters up to min(len, 6); a short checksum truncates, never fails; `dir + subdir` is a prefix of the checksum. |
| Paths.RelativePathSpec | download-yfcc-15m.py:57 | The relative path starts with `dir/`, ends in `.jpg`, and its length is determined by the checksum's length. |
| Paths.RelativePathRoundTrip | download-yfcc-15m.py:57 | The checksum can be recovered from its relative path. |
| Paths.RelativePathInjective | download-yfcc-15m.py:57 | Two different checksums never share a relative path. |
| Paths.JoinSpec | download-yfcc-15m.py:58 | `os.path.join(a, b)` ends in `b`; an absolute `b` discards `a`; otherwise it starts with `a` and adds at most one separator. |
| Paths.JoinInjective | download-yfcc-15m.py:58 | Under one root, two relative names give the same path only if they are equal. |
| Paths.SourceRootSpec | download-yfcc-15m.py:30 | `ext_root_dir` is `../root` for a relative root and the root itself for an absolute one. |
| Paths.SourceIsNotDestination | download-yfcc-15m.py:58-64 | With a relative root and a relative name, the source path is never the destination path. |
| Paths.AbsoluteRootSourceIsDestination | download-yfcc-15m.py:30 | With an absolute root, the source path is the destination path. |
| Manifest.SkipBranch | download-yfcc-15m.py:59-62 | Skip is taken exactly when the destination exists. Files, lists and opens are unchanged; `num_skipped` and `num_lines` each go up by one. |
| Manifest.LinkBranch | download-yfcc-15m.py:64-70 | Link is taken only when the destination is absent and the source exists. The destination becomes a hard link with the source's inode; no list changes; `num_linked` and `num_lines` each go up by one; the same checksum would now be skipped. |
| Manifest.AppendBranch | download-yfcc-15m.py:72-77 | Append is taken only when neither path exists. Exactly `file_name + "\n"` is added at the end of list `dir`; files and every other list are unchanged; the handle is open on `dir`; at most one open is logged; `num_appended` and `num_lines` each go up by one. |
| Manifest.AppendCounts | download-yfcc-15m.py:76-77 | An appended line adds one to `num_appended` and `num_lines`, whatever the handle's state. |
| Manifest.HandleStep | download-yfcc-15m.py:51-73 | The handle is either closed or open on `prev_dir`, and `prev_dir` becomes the line's key. A key change closes the handle and an append then reopens it on the new key. With the same key, an append opens the handle only if it is closed; otherwise the handle is unchanged. |
| Manifest.PassFiles | download-yfcc-15m.py:64-70 | The files after the loop are determined by the link decisions alone. |
| Manifest.OutcomeAt | download-yfcc-15m.py:58-70 | The outcome of line i is decided against the files left by the lines before it. |
| Manifest.PassKeepsHandleFit | download-yfcc-15m.py:51-55 | After any number of lines the handle invariant holds, and `prev_dir` is the key of the last line. |
| Manifest.CounterIdentity | download-yfcc-15m.py:47-77 | `num_lines == num_skipped + num_linked + num_appended` is preserved, and `num_lines` grows by exactly the number of lines. |
| Manifest.CountersMatchOutcomes | download-yfcc-15m.py:59-77 | Each counter grows by the number of lines with the matching outcome. |
| Manifest.ListsInOrder | download-yfcc-15m.py:72-77 | Every list ends as its old contents followed by the records of the lines appended to it, in input order; a list no line appended to is unchanged. |
| Manifest.ListsStep | download-yfcc-15m.py:72-77 | One line adds its record to the end of its own list when appended, and changes no list otherwise. |
| Manifest.AppendToList | download-yfcc-15m.py:73-76 | A write through a handle opened in append mode adds the record at the end of that list only. |
| Manifest.FilesOnlyGrow | download-yfcc-15m.py:64-68 | No existing file is removed or changed: the pass only adds hard links. |
| Manifest.FilesAfterPrefix | download-yfcc-15m.py:64-68 | The files present after any prefix of the lines are still present, with the same inode, at the end. |
| Manifest.DestinationStays | download-yfcc-15m.py:59-68 | A line that was skipped or linked leaves its destination in place for the rest of the pass. |
| Manifest.RepeatIsSkipped | download-yfcc-15m.py:59-70 | A later repeat of a checksum that was skipped or linked is skipped. |
| Manifest.RerunSkips | download-yfcc-15m.py:59-70 | Rerunning over the files the first run left, every line the first run skipped or linked is skipped. |
| Manifest.RerunOutcomes | download-yfcc-15m.py:59-70 | A second run skips at least as many lines as the first run skipped and linked together. |
| Manifest.SecondRun | download-yfcc-15m.py:59-77 | A second run's skipped count is at least the first run's skipped plus linked, and its linked plus appended is at most the first run's appended. |
| Manifest.AbsoluteRootNeverLinks | download-yfcc-15m.py:30 | With an absolute destination root, no line is ever linked. |
| Manifest.AppendedToShape | download-yfcc-15m.py:57-76 | Every record the pass appends to list `dir` starts with `dir/` and ends in `.jpg\n`. |
| Manifest.ListsKeepShape | download-yfcc-15m.py:72-76 | A list whose existing records already start with `dir/` and end in `.jpg\n` still has only such records after the pass. Its earlier contents are kept as they are, not checked. |
| Handles.OpensFollowAppends | download-yfcc-15m.py:72-73 | Lists are opened lazily. The log of opens only grows, by at most one open per appended line, and every open names the key of some line. |
| Handles.FreshKey | download-yfcc-15m.py:51 | In grouped input, a line whose key differs from the previous line's has a key no earlier line had. |
| Handles.OpensStep | download-yfcc-15m.py:51-73 | One line keeps the invariant "no list opened twice, and the current key has been opened exactly when the handle is open on it", provided a key change brings a new key. |
| Handles.GroupedOpensOnce | download-yfcc-15m.py:51-73 | When lines sharing a key are contiguous, no list file is opened twice in a run. |
| Handles.SortedIsGrouped | download-yfcc-15m.py:17-26 | A checksum file sorted in Python's string order has each partition key in one contiguous run. |
| Builder.RunSummary | download-yfcc-15m.py:36-80 | At the end of a whole run the handle is closed, the counters add up with `num_lines` equal to the line count, each list is its old contents plus its records in order, and the files only gained hard links. |
| Builder.BuildManifest | download-yfcc-15m.py:26-80 | A missing checksum file, then a missing list directory, is reported before any line is read. Otherwise the loop's final state is exactly `Finish(Pass(...))`, with the handle closed and the properties of RunSummary. |
| Scenarios.FirstLine | download-yfcc-15m.py:42-77 | With empty trees, `abc123` opens list `abc` and is appended to it. |
| Scenarios.SecondLine | download-yfcc-15m.py:42-77 | `abc456` then goes to the same open list, after `abc123`. |
| Scenarios.ThirdLine | download-yfcc-15m.py:42-77 | `xyz789` changes the key, and list `xyz` is opened for it. |
| Scenarios.EverythingDownloaded | download-yfcc-15m.py:42-80 | With empty trees all three lines are appended (counters 0, 0, 3, 3) to lists `abc` and `xyz`, each opened once. |
| Scenarios.ImagePaths | download-yfcc-15m.py:57-64 | Under root `images`, a checksum's destination and source paths written out. |
| Scenarios.OnlyFirstPresent | download-yfcc-15m.py:58-65 | When only `abc123`'s image exists, every other six-character checksum is appended. |
| Scenarios.FirstLineSkipped | download-yfcc-15m.py:59-62 | An existing destination for `abc123` is skipped, and no handle is opened. |
| Scenarios.SecondLineAppended | download-yfcc-15m.py:72-77 | The first list is then opened by `abc456`. |
| Scenarios.ThirdLineAppended | download-yfcc-15m.py:51-77 | `xyz789` changes the key and opens list `xyz`. |
| Scenarios.FirstAlreadyPresent | download-yfcc-15m.py:42-80 | With the first image present the counters are 1, 0, 2, 3; the files are unchanged; the two lists hold the other two records. |

## Left out

- Logging and the final summary print (lines 35, 44-46 and 82-83) only report values; the counters they print are modelled.
- Command-line parsing and reading the checksum file. The file's lines are a parameter (`lines`), each as Python's line iteration yields it, with its terminator.
- Real filesystem calls become an abstract state:
  - `os.path.isfile` is key membership in `files`, and `os.path.isdir` is membership in `dirs`;
  - `os.link` copies the source's inode, with the inode as an abstract number;
  - the list file for key `dir` is the entry `dir` of `lists` rather than a real file at `join(file_lists_dir, dir)`.
- `os.makedirs` before a link only creates parent directories. Directories play no part in any decision after the start-up check, so it is not modelled.
- I/O failures during the loop are not modelled: a failing link, a permission error, a destination that is a directory, or opening a list for an empty checksum (whose key `""` names the list directory itself). The model records such a line's append under the key `""`.
- `Builder.BuildManifest`: the handle is a value (`Closed` or `Open(key)`), not a file object, and writes go straight into the list's contents, so buffering and the exact moment of closing are not modelled. The model keeps a log of opens (`opens`) that the script does not have, so that "opened at most once" can be stated.
- `Handles.Sorted`: sortedness is stated on the stripped checksums, with Python's code-point order on strings.
