/**
 * The manifest builder's pass over the checksum file, as a function of its state.
 *
 * The filesystem is abstract: `files` maps every existing regular file to its inode
 * (`os.path.isfile(p)` is `p in files`, and a hard link gives the new name the inode of
 * the old one), and `lists` maps the name of each download list to the records written
 * to it, oldest first; each record is one `write` call, `file_name + "\n"`.
 */
module Manifest {
  import opened Wrappers
  import opened Paths

  /** The three mutually exclusive things one line can lead to. */
  datatype Outcome = Skipped | Linked | Appended

  /** The single list-file handle: closed, or open on the list with the given name. */
  datatype Handle = Closed | Open(list: string)

  datatype Counters = Counters(skipped: nat, linked: nat, appended: nat, lines: nat)

  /**
   * The script's loop variables (`prev_dir`, `file`, the four counters), the sequence of
   * list files it has opened, and the filesystem it has changed.
   */
  datatype State = State(prevDir: Option<string>, handle: Handle, opens: seq<string>,
                         counters: Counters, files: map<string, nat>,
                         lists: map<string, seq<string>>)

  /** The state before the first line: nothing seen, no handle, all counters zero. */
  function Start(files: map<string, nat>, lists: map<string, seq<string>>): State {
    State(None, Closed, [], Counters(0, 0, 0, 0), files, lists)
  }

  /** What a list file holds; a list that does not exist yet holds nothing. */
  function ListContents(lists: map<string, seq<string>>, name: string): seq<string> {
    if name in lists then lists[name] else []
  }

  /** `dst`: the checksum's relative path under the destination root. */
  function Destination(root: string, checksum: string): string {
    Join(root, RelativePath(checksum))
  }

  /** `src`: the same relative path under the mirrored source root. */
  function Source(root: string, checksum: string): string {
    Join(SourceRoot(root), RelativePath(checksum))
  }

  /** The decision order: an existing destination wins, then an existing source, then a download. */
  function Decide(files: map<string, nat>, root: string, checksum: string): Outcome {
    if Destination(root, checksum) in files then Skipped
    else if Source(root, checksum) in files then Linked
    else Appended
  }

  /** The partition key `dir` of a line of the checksum file. */
  function Key(line: string): string {
    PartitionKey(RStrip(line))
  }

  /** One iteration of the loop over the checksum file. */
  function Step(s: State, root: string, line: string): State {
    var checksum := RStrip(line);
    var dir := Key(line);
    var t := if s.prevDir != Some(dir) then s.(prevDir := Some(dir), handle := Closed) else s;
    var c := t.counters.(lines := t.counters.lines + 1);
    match Decide(t.files, root, checksum)
    case Skipped =>
      t.(counters := c.(skipped := c.skipped + 1))
    case Linked =>
      t.(files := t.files[Destination(root, checksum) := t.files[Source(root, checksum)]],
         counters := c.(linked := c.linked + 1))
    case Appended =>
      var u := if t.handle.Closed? then t.(handle := Open(dir), opens := t.opens + [dir]) else t;
      u.(lists := u.lists[u.handle.list := ListContents(u.lists, u.handle.list) + [RelativePath(checksum) + "\n"]],
         counters := c.(appended := c.appended + 1))
  }

  /** The loop over all lines, in input order. */
  function Pass(s: State, root: string, lines: seq<string>): State
    decreases |lines|
  {
    if lines == [] then s
    else Step(Pass(s, root, lines[..|lines| - 1]), root, lines[|lines| - 1])
  }

  /** The loop's view of Pass: one more line is one more Step. */
  lemma PassSnoc(s: State, root: string, lines: seq<string>, i: nat)
    requires i < |lines|
    ensures Pass(s, root, lines[..i + 1]) == Step(Pass(s, root, lines[..i]), root, lines[i])
  {
    assert lines[..i + 1][..i] == lines[..i];
  }

  /** After the loop: close the handle if one is open. */
  function Finish(s: State): State {
    s.(handle := Closed)
  }

  /** The handle invariant: an open handle always belongs to the partition key last seen. */
  predicate HandleFits(s: State) {
    s.handle.Open? ==> s.prevDir == Some(s.handle.list)
  }

  predicate CountersAddUp(c: Counters) {
    c.lines == c.skipped + c.linked + c.appended
  }

  /** `g` keeps every file of `f`, with the same inode. */
  ghost predicate Extends(f: map<string, nat>, g: map<string, nat>) {
    forall p :: p in f ==> p in g && g[p] == f[p]
  }

  // ---------------------------------------------------------------------------
  // One line: the three branches and the handle.
  // ---------------------------------------------------------------------------

  /** Skip: the destination exists; nothing is linked, no list is written, no handle is opened. */
  lemma SkipBranch(s: State, root: string, line: string)
    requires Decide(s.files, root, RStrip(line)) == Skipped
    ensures var s' := Step(s, root, line);
      && Destination(root, RStrip(line)) in s.files
      && s'.files == s.files && s'.lists == s.lists && s'.opens == s.opens
      && s'.counters == s.counters.(skipped := s.counters.skipped + 1, lines := s.counters.lines + 1)
  {
  }

  /**
   * Link: the destination is absent and the source exists; the destination becomes a
   * hard link to the source, no list changes, and the same checksum would now be skipped.
   */
  lemma LinkBranch(s: State, root: string, line: string)
    requires Decide(s.files, root, RStrip(line)) == Linked
    ensures var checksum := RStrip(line); var s' := Step(s, root, line);
      && Destination(root, checksum) !in s.files && Source(root, checksum) in s.files
      && s'.files == s.files[Destination(root, checksum) := s.files[Source(root, checksum)]]
      && s'.lists == s.lists && s'.opens == s.opens
      && s'.counters == s.counters.(linked := s.counters.linked + 1, lines := s.counters.lines + 1)
      && Decide(s'.files, root, checksum) == Skipped
  {
  }

  /**
   * Append: neither destination nor source exists; exactly `file_name + "\n"` goes to the
   * end of the list named by the partition key, every other list and every file stays as it was.
   */
  lemma AppendBranch(s: State, root: string, line: string)
    requires HandleFits(s)
    requires Decide(s.files, root, RStrip(line)) == Appended
    ensures var checksum := RStrip(line); var dir := Key(line); var s' := Step(s, root, line);
      && Destination(root, checksum) !in s.files && Source(root, checksum) !in s.files
      && s'.files == s.files
      && s'.lists == s.lists[dir := ListContents(s.lists, dir) + [RelativePath(checksum) + "\n"]]
      && s'.handle == Open(dir)
      && (s'.opens == s.opens || s'.opens == s.opens + [dir])
      && s'.counters == s.counters.(appended := s.counters.appended + 1, lines := s.counters.lines + 1)
  {
  }

  /** Append, counted: one more appended line, whatever the handle. */
  lemma AppendCounts(s: State, root: string, line: string)
    requires Decide(s.files, root, RStrip(line)) == Appended
    ensures Step(s, root, line).counters == s.counters.(appended := s.counters.appended + 1, lines := s.counters.lines + 1)
  {
  }

  /**
   * The handle across one line: it stays fitted to `prev_dir`; a change of partition key
   * closes it, and it is (re)opened lazily, on the list named by the key, only by the
   * append branch and only when it is closed.
   */
  lemma HandleStep(s: State, root: string, line: string)
    requires HandleFits(s)
    ensures var checksum := RStrip(line); var dir := Key(line); var s' := Step(s, root, line);
      var appended := Decide(s.files, root, checksum) == Appended;
      && HandleFits(s') && s'.prevDir == Some(dir)
      && (s.prevDir != Some(dir) ==>
            && s'.handle == (if appended then Open(dir) else Closed)
            && s'.opens == (if appended then s.opens + [dir] else s.opens))
      && (s.prevDir == Some(dir) ==>
            && s'.handle == (if appended then Open(dir) else s.handle)
            && s'.opens == (if appended && s.handle == Closed then s.opens + [dir] else s.opens))
  {
  }

  // ---------------------------------------------------------------------------
  // The files alone: what each line decides, independently of lists and handle.
  // ---------------------------------------------------------------------------

  /** The files after the lines are processed: only the link branch changes them. */
  function FilesAfter(files: map<string, nat>, root: string, lines: seq<string>): map<string, nat>
    decreases |lines|
  {
    if lines == [] then files
    else
      var f := FilesAfter(files, root, lines[..|lines| - 1]);
      var checksum := RStrip(lines[|lines| - 1]);
      if Decide(f, root, checksum) == Linked
      then f[Destination(root, checksum) := f[Source(root, checksum)]]
      else f
  }

  /** The outcome of each line, in input order. */
  function Outcomes(files: map<string, nat>, root: string, lines: seq<string>): (os: seq<Outcome>)
    ensures |os| == |lines|
    decreases |lines|
  {
    if lines == [] then []
    else
      var n := |lines| - 1;
      Outcomes(files, root, lines[..n]) + [Decide(FilesAfter(files, root, lines[..n]), root, RStrip(lines[n]))]
  }

  /** The records the lines whose outcome is Appended and whose partition key is `dir` write, in input order. */
  function AppendedTo(dir: string, lines: seq<string>, os: seq<Outcome>): seq<string>
    requires |os| == |lines|
    decreases |lines|
  {
    if lines == [] then []
    else
      var n := |lines| - 1;
      var checksum := RStrip(lines[n]);
      AppendedTo(dir, lines[..n], os[..n])
        + (if os[n] == Appended && Key(lines[n]) == dir then [RelativePath(checksum) + "\n"] else [])
  }

  lemma {:induction false} PassFiles(s: State, root: string, lines: seq<string>)
    ensures Pass(s, root, lines).files == FilesAfter(s.files, root, lines)
    decreases |lines|
  {
    if lines != [] {
      PassFiles(s, root, lines[..|lines| - 1]);
    }
  }

  /** The i-th outcome is the decision for line i against the files left by the lines before it. */
  lemma {:induction false} OutcomeAt(files: map<string, nat>, root: string, lines: seq<string>, i: nat)
    requires i < |lines|
    ensures Outcomes(files, root, lines)[i] == Decide(FilesAfter(files, root, lines[..i]), root, RStrip(lines[i]))
    decreases |lines|
  {
    var n := |lines| - 1;
    var prefix := lines[..n];
    var os := Outcomes(files, root, lines);
    var last := Decide(FilesAfter(files, root, prefix), root, RStrip(lines[n]));
    assert os == Outcomes(files, root, prefix) + [last];
    if i < n {
      OutcomeAt(files, root, prefix, i);
      assert prefix[..i] == lines[..i] && prefix[i] == lines[i];
      assert os[i] == Outcomes(files, root, prefix)[i];
    } else {
      assert lines[..i] == prefix;
    }
  }

  // ---------------------------------------------------------------------------
  // The whole pass.
  // ---------------------------------------------------------------------------

  /** The handle invariant holds after every line, and `prev_dir` is the key of the last line. */
  lemma {:induction false} PassKeepsHandleFit(s: State, root: string, lines: seq<string>)
    requires HandleFits(s)
    ensures HandleFits(Pass(s, root, lines))
    ensures lines != [] ==> Pass(s, root, lines).prevDir == Some(Key(lines[|lines| - 1]))
    decreases |lines|
  {
    if lines != [] {
      PassKeepsHandleFit(s, root, lines[..|lines| - 1]);
      HandleStep(Pass(s, root, lines[..|lines| - 1]), root, lines[|lines| - 1]);
    }
  }

  /** `num_lines == num_skipped + num_linked + num_appended` is kept by every line, and every line is counted once. */
  lemma {:induction false} CounterIdentity(s: State, root: string, lines: seq<string>)
    requires CountersAddUp(s.counters)
    ensures CountersAddUp(Pass(s, root, lines).counters)
    ensures Pass(s, root, lines).counters.lines == s.counters.lines + |lines|
    decreases |lines|
  {
    if lines != [] {
      CounterIdentity(s, root, lines[..|lines| - 1]);
    }
  }

  /** Each counter grows by the number of lines with the matching outcome. */
  lemma {:induction false} CountersMatchOutcomes(s: State, root: string, lines: seq<string>)
    ensures var c := Pass(s, root, lines).counters; var m := multiset(Outcomes(s.files, root, lines));
      && c.skipped == s.counters.skipped + m[Skipped]
      && c.linked == s.counters.linked + m[Linked]
      && c.appended == s.counters.appended + m[Appended]
    decreases |lines|
  {
    if lines != [] {
      var n := |lines| - 1;
      var prefix := lines[..n];
      CountersMatchOutcomes(s, root, prefix);
      PassFiles(s, root, prefix);
      var p := Pass(s, root, prefix);
      var o := Decide(p.files, root, RStrip(lines[n]));
      assert Outcomes(s.files, root, lines) == Outcomes(s.files, root, prefix) + [o];
      assert multiset(Outcomes(s.files, root, lines)) == multiset(Outcomes(s.files, root, prefix)) + multiset{o};
      match o
      case Skipped => SkipBranch(p, root, lines[n]);
      case Linked => LinkBranch(p, root, lines[n]);
      case Appended => AppendCounts(p, root, lines[n]);
    }
  }

  /**
   * Every list ends up as what it held before followed by the records of the lines
   * appended to it, in input order; lists no line appended to are unchanged.
   */
  lemma {:induction false} ListsInOrder(s: State, root: string, lines: seq<string>, dir: string)
    requires HandleFits(s)
    ensures ListContents(Pass(s, root, lines).lists, dir)
            == ListContents(s.lists, dir) + AppendedTo(dir, lines, Outcomes(s.files, root, lines))
    decreases |lines|
  {
    if lines == [] {
      assert ListContents(s.lists, dir) + [] == ListContents(s.lists, dir);
    } else {
      var n := |lines| - 1;
      var prefix := lines[..n];
      var p := Pass(s, root, prefix);
      var os := Outcomes(s.files, root, lines);
      ListsInOrder(s, root, prefix, dir);
      PassKeepsHandleFit(s, root, prefix);
      PassFiles(s, root, prefix);
      var checksum := RStrip(lines[n]);
      assert os[..n] == Outcomes(s.files, root, prefix);
      assert os[n] == Decide(p.files, root, checksum);
      var earlier := AppendedTo(dir, prefix, os[..n]);
      var extra := if os[n] == Appended && Key(lines[n]) == dir then [RelativePath(checksum) + "\n"] else [];
      assert AppendedTo(dir, lines, os) == earlier + extra;
      ListsStep(p, root, lines[n], dir);
      assert Pass(s, root, lines) == Step(p, root, lines[n]);
      ConcatAssoc(ListContents(s.lists, dir), earlier, extra);
    }
  }

  /** One line adds its record to the end of the list of its partition key when it is appended, and touches no list otherwise. */
  lemma ListsStep(s: State, root: string, line: string, dir: string)
    requires HandleFits(s)
    ensures var checksum := RStrip(line);
      ListContents(Step(s, root, line).lists, dir)
      == ListContents(s.lists, dir)
         + (if Decide(s.files, root, checksum) == Appended && Key(line) == dir
            then [RelativePath(checksum) + "\n"] else [])
  {
    var checksum := RStrip(line);
    var o := Decide(s.files, root, checksum);
    if o == Appended {
      AppendBranch(s, root, line);
      AppendToList(s.lists, Key(line), RelativePath(checksum) + "\n", dir);
    } else {
      if o == Skipped { SkipBranch(s, root, line); } else { LinkBranch(s, root, line); }
      assert ListContents(s.lists, dir) + [] == ListContents(s.lists, dir);
    }
  }

  lemma ConcatAssoc(a: seq<string>, b: seq<string>, c: seq<string>)
    ensures (a + b) + c == a + (b + c)
  {
  }

  /** Writing one record to list `k` adds it at the end of that list and leaves every other list as it was. */
  lemma AppendToList(lists: map<string, seq<string>>, k: string, record: string, dir: string)
    ensures ListContents(lists[k := ListContents(lists, k) + [record]], dir)
            == ListContents(lists, dir) + (if k == dir then [record] else [])
  {
    if k != dir {
      assert ListContents(lists, dir) + [] == ListContents(lists, dir);
    }
  }

  /** No existing file is removed or changed: the pass only adds hard links. */
  lemma {:induction false} FilesOnlyGrow(files: map<string, nat>, root: string, lines: seq<string>)
    ensures Extends(files, FilesAfter(files, root, lines))
    decreases |lines|
  {
    if lines != [] {
      FilesOnlyGrow(files, root, lines[..|lines| - 1]);
    }
  }

  /** The files after a prefix of the lines are kept by the rest of the pass. */
  lemma {:induction false} FilesAfterPrefix(files: map<string, nat>, root: string, lines: seq<string>, i: nat)
    requires i <= |lines|
    ensures Extends(FilesAfter(files, root, lines[..i]), FilesAfter(files, root, lines))
    decreases |lines|
  {
    if i == |lines| {
      assert lines[..i] == lines;
    } else {
      var n := |lines| - 1;
      FilesAfterPrefix(files, root, lines[..n], i);
      assert lines[..n][..i] == lines[..i];
    }
  }

  /** A line that was skipped or linked leaves its destination in place for the rest of the pass. */
  lemma DestinationStays(files: map<string, nat>, root: string, lines: seq<string>, i: nat)
    requires i < |lines|
    requires Outcomes(files, root, lines)[i] != Appended
    ensures Destination(root, RStrip(lines[i])) in FilesAfter(files, root, lines)
  {
    OutcomeAt(files, root, lines, i);
    FilesAfterPrefix(files, root, lines, i + 1);
    assert lines[..i + 1][..i] == lines[..i];
  }

  /** A repeat of a checksum that was skipped or linked before is skipped. */
  lemma RepeatIsSkipped(files: map<string, nat>, root: string, lines: seq<string>, i: nat, j: nat)
    requires i < j < |lines|
    requires RStrip(lines[i]) == RStrip(lines[j])
    requires Outcomes(files, root, lines)[i] != Appended
    ensures Outcomes(files, root, lines)[j] == Skipped
  {
    assert lines[..j][i] == lines[i];
    assert lines[..j][..i] == lines[..i];
    OutcomeAt(files, root, lines[..j], i);
    OutcomeAt(files, root, lines, i);
    DestinationStays(files, root, lines[..j], i);
    OutcomeAt(files, root, lines, j);
  }

  /**
   * Running the pass a second time over the files the first run left: every line the
   * first run skipped or linked is now skipped.
   */
  lemma RerunSkips(files: map<string, nat>, root: string, lines: seq<string>, i: nat)
    requires i < |lines|
    requires Outcomes(files, root, lines)[i] != Appended
    ensures Outcomes(FilesAfter(files, root, lines), root, lines)[i] == Skipped
  {
    var first := FilesAfter(files, root, lines);
    DestinationStays(files, root, lines, i);
    OutcomeAt(first, root, lines, i);
    FilesOnlyGrow(first, root, lines[..i]);
  }

  /** Counting form of RerunSkips: every outcome other than Appended in `o1` is Skipped in `o2`. */
  lemma {:induction false} SkipsDominate(o1: seq<Outcome>, o2: seq<Outcome>)
    requires |o1| == |o2|
    requires forall i :: 0 <= i < |o1| && o1[i] != Appended ==> o2[i] == Skipped
    ensures multiset(o2)[Skipped] >= multiset(o1)[Skipped] + multiset(o1)[Linked]
    decreases |o1|
  {
    if o1 != [] {
      var n := |o1| - 1;
      SkipsDominate(o1[..n], o2[..n]);
      assert o1 == o1[..n] + [o1[n]];
      assert o2 == o2[..n] + [o2[n]];
    }
  }

  /** The outcomes of a second run over the files the first run left, counted. */
  lemma RerunOutcomes(files: map<string, nat>, root: string, lines: seq<string>)
    ensures var o1 := Outcomes(files, root, lines);
      var o2 := Outcomes(FilesAfter(files, root, lines), root, lines);
      multiset(o2)[Skipped] >= multiset(o1)[Skipped] + multiset(o1)[Linked]
  {
    var o1 := Outcomes(files, root, lines);
    var o2 := Outcomes(FilesAfter(files, root, lines), root, lines);
    forall i | 0 <= i < |o1| && o1[i] != Appended ensures o2[i] == Skipped {
      RerunSkips(files, root, lines, i);
    }
    SkipsDominate(o1, o2);
  }

  /**
   * A second run over what the first left behind skips at least every line the first
   * run skipped or linked, so it links and appends at most what the first run appended.
   */
  lemma SecondRun(files: map<string, nat>, lists: map<string, seq<string>>, root: string, lines: seq<string>)
    ensures var first := Pass(Start(files, lists), root, lines);
      var second := Pass(Start(first.files, first.lists), root, lines);
      && second.counters.skipped >= first.counters.skipped + first.counters.linked
      && second.counters.linked + second.counters.appended <= first.counters.appended
  {
    var s1 := Start(files, lists);
    var first := Pass(s1, root, lines);
    var s2 := Start(first.files, first.lists);
    var second := Pass(s2, root, lines);
    PassFiles(s1, root, lines);
    assert s2.files == FilesAfter(files, root, lines);
    CountersMatchOutcomes(s1, root, lines);
    CountersMatchOutcomes(s2, root, lines);
    CounterIdentity(s1, root, lines);
    CounterIdentity(s2, root, lines);
    RerunOutcomes(files, root, lines);
  }

  /** With an absolute destination root the mirrored source is the destination itself, so nothing is ever linked. */
  lemma AbsoluteRootNeverLinks(files: map<string, nat>, root: string, checksum: string)
    requires IsAbsolute(root)
    ensures Decide(files, root, checksum) != Linked
  {
    AbsoluteRootSourceIsDestination(root, RelativePath(checksum));
  }

  /** Every record is a path under `dir/` ending in ".jpg" and a newline. */
  predicate RecordsUnder(dir: string, records: seq<string>) {
    forall k :: 0 <= k < |records| ==>
      dir + "/" <= records[k] && |records[k]| >= 5 && records[k][|records[k]| - 5..] == ".jpg\n"
  }

  /** Every record the pass appends to the list named `dir` is a path under `dir/` ending in ".jpg" and a newline. */
  lemma {:induction false} AppendedToShape(dir: string, lines: seq<string>, os: seq<Outcome>)
    requires |os| == |lines|
    ensures RecordsUnder(dir, AppendedTo(dir, lines, os))
    decreases |lines|
  {
    if lines != [] {
      var n := |lines| - 1;
      AppendedToShape(dir, lines[..n], os[..n]);
      RelativePathSpec(RStrip(lines[n]));
    }
  }

  /** Two runs of records under `dir`, one after the other, are records under `dir`. */
  lemma RecordsUnderConcat(dir: string, a: seq<string>, b: seq<string>)
    requires RecordsUnder(dir, a) && RecordsUnder(dir, b)
    ensures RecordsUnder(dir, a + b)
  {
    forall k | 0 <= k < |a + b| ensures (a + b)[k] == if k < |a| then a[k] else b[k - |a|] {
    }
  }

  /** A list whose records all lie under its key keeps that shape through a whole pass. */
  lemma ListsKeepShape(files: map<string, nat>, lists: map<string, seq<string>>, root: string,
                       lines: seq<string>, dir: string)
    requires RecordsUnder(dir, ListContents(lists, dir))
    ensures RecordsUnder(dir, ListContents(Pass(Start(files, lists), root, lines).lists, dir))
  {
    var os := Outcomes(files, root, lines);
    ListsInOrder(Start(files, lists), root, lines, dir);
    AppendedToShape(dir, lines, os);
    RecordsUnderConcat(dir, ListContents(lists, dir), AppendedTo(dir, lines, os));
  }
}
