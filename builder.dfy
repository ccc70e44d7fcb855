/**
 * The script body: the two start-up checks, then one loop over the lines of the
 * checksum file that skips, links or appends each one, then closing the handle.
 */
module Builder {
  import opened Wrappers
  import opened Paths
  import opened Manifest

  /** The two fatal errors raised before any line is read (both `FileNotFoundError` in the script). */
  datatype ConfigError = MissingChecksumFile(path: string) | MissingListsDir(path: string)

  /** What a whole run from the start state, handle closed at the end, amounts to. */
  lemma RunSummary(files: map<string, nat>, lists: map<string, seq<string>>, root: string, lines: seq<string>)
    ensures var r := Finish(Pass(Start(files, lists), root, lines));
      && r.handle == Closed
      && r.counters.lines == |lines| && CountersAddUp(r.counters)
      && (forall dir :: ListContents(r.lists, dir)
                        == ListContents(lists, dir) + AppendedTo(dir, lines, Outcomes(files, root, lines)))
      && r.files == FilesAfter(files, root, lines) && Extends(files, r.files)
  {
    var s0 := Start(files, lists);
    CounterIdentity(s0, root, lines);
    forall dir ensures ListContents(Pass(s0, root, lines).lists, dir)
                       == ListContents(lists, dir) + AppendedTo(dir, lines, Outcomes(files, root, lines)) {
      ListsInOrder(s0, root, lines, dir);
    }
    PassFiles(s0, root, lines);
    FilesOnlyGrow(files, root, lines);
  }

  /**
   * Runs the manifest builder. `lines` is the content of `checksumsFile`; `files` holds
   * every existing regular file with its inode, `dirs` every existing directory, and
   * `lists` the download lists already in `listsDir`. On success the result is the state
   * the script ends in; a failure happens before any line is processed, so nothing changes.
   */
  method BuildManifest(checksumsFile: string, intRoot: string, listsDir: string,
                       lines: seq<string>, files: map<string, nat>, dirs: set<string>,
                       lists: map<string, seq<string>>)
    returns (r: Result<State, ConfigError>)
    ensures checksumsFile !in files ==> r == Failure(MissingChecksumFile(checksumsFile))
    ensures checksumsFile in files && listsDir !in dirs ==> r == Failure(MissingListsDir(listsDir))
    ensures checksumsFile in files && listsDir in dirs ==>
              r == Success(Finish(Pass(Start(files, lists), intRoot, lines)))
    ensures r.Success? ==> r.value.handle == Closed
    ensures r.Success? ==> r.value.counters.lines == |lines| && CountersAddUp(r.value.counters)
    ensures r.Success? ==> forall dir :: ListContents(r.value.lists, dir)
                                         == ListContents(lists, dir) + AppendedTo(dir, lines, Outcomes(files, intRoot, lines))
    ensures r.Success? ==> r.value.files == FilesAfter(files, intRoot, lines) && Extends(files, r.value.files)
  {
    if checksumsFile !in files {
      return Failure(MissingChecksumFile(checksumsFile));
    }
    var extRoot := SourceRoot(intRoot);
    if listsDir !in dirs {
      return Failure(MissingListsDir(listsDir));
    }

    var prevDir: Option<string> := None;
    var file: Handle := Closed;
    var opens: seq<string> := [];
    var numSkipped: nat, numLinked: nat, numAppended: nat, numLines: nat := 0, 0, 0, 0;
    var fs, ls := files, lists;
    for i := 0 to |lines|
      invariant State(prevDir, file, opens, Counters(numSkipped, numLinked, numAppended, numLines), fs, ls)
                == Pass(Start(files, lists), intRoot, lines[..i])
    {
      ghost var before := State(prevDir, file, opens, Counters(numSkipped, numLinked, numAppended, numLines), fs, ls);
      ghost var after := Step(before, intRoot, lines[i]);
      PassSnoc(Start(files, lists), intRoot, lines, i);
      PassKeepsHandleFit(Start(files, lists), intRoot, lines[..i]);
      numLines := numLines + 1;
      var checksum := RStrip(lines[i]);
      var dir := PartitionKey(checksum);
      var subdir := SubKey(checksum);
      if prevDir != Some(dir) {
        prevDir := Some(dir);
        if file.Open? {
          file := Closed;
        }
      }

      var fileName := dir + "/" + subdir + "/" + checksum + ".jpg";
      var dst := Join(intRoot, fileName);
      assert fileName == RelativePath(checksum) && dst == Destination(intRoot, checksum);
      if dst in fs {
        numSkipped := numSkipped + 1;
        assert State(prevDir, file, opens, Counters(numSkipped, numLinked, numAppended, numLines), fs, ls) == after by {
          SkipBranch(before, intRoot, lines[i]);
          HandleStep(before, intRoot, lines[i]);
        }
        continue;
      }

      var src := Join(extRoot, fileName);
      if src in fs {
        fs := fs[dst := fs[src]];
        numLinked := numLinked + 1;
        assert State(prevDir, file, opens, Counters(numSkipped, numLinked, numAppended, numLines), fs, ls) == after by {
          LinkBranch(before, intRoot, lines[i]);
          HandleStep(before, intRoot, lines[i]);
        }
        continue;
      }

      if file.Closed? {
        file := Open(dir);
        opens := opens + [dir];
      }
      ls := ls[file.list := ListContents(ls, file.list) + [fileName + "\n"]];
      numAppended := numAppended + 1;
      assert State(prevDir, file, opens, Counters(numSkipped, numLinked, numAppended, numLines), fs, ls) == after by {
        AppendBranch(before, intRoot, lines[i]);
        HandleStep(before, intRoot, lines[i]);
      }
    }
    assert lines[..|lines|] == lines;

    if file.Open? {
      file := Closed;
    }
    r := Success(State(prevDir, file, opens, Counters(numSkipped, numLinked, numAppended, numLines), fs, ls));
    RunSummary(files, lists, intRoot, lines);
  }
}
