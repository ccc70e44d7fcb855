/**
 * The single list-file handle over a whole pass: it is opened lazily, only for downloads,
 * and when the checksum file is sorted every list is opened at most once.
 */
module Handles {
  import opened Wrappers
  import opened Paths
  import opened Manifest

  ghost function Keys(lines: seq<string>): set<string> {
    set i | 0 <= i < |lines| :: Key(lines[i])
  }

  /** Lines that share a partition key are contiguous. */
  ghost predicate Grouped(lines: seq<string>) {
    forall i, j, l | 0 <= i < j < l < |lines| :: Key(lines[i]) == Key(lines[l]) ==> Key(lines[j]) == Key(lines[i])
  }

  ghost predicate NoDuplicates(xs: seq<string>) {
    forall i, j | 0 <= i < j < |xs| :: xs[i] != xs[j]
  }

  /** Python's `a <= b` on strings: `a` is a prefix of `b` or is smaller at the first difference. */
  predicate LexLe(a: string, b: string)
    decreases |a|
  {
    a == [] || (b != [] && (a[0] < b[0] || (a[0] == b[0] && LexLe(a[1..], b[1..]))))
  }

  /** The checksums, stripped, are in ascending order. */
  ghost predicate Sorted(lines: seq<string>) {
    forall i, j | 0 <= i < j < |lines| :: LexLe(RStrip(lines[i]), RStrip(lines[j]))
  }

  /** Lists are opened lazily: the log of opens only grows, by at most one per appended line, each time on the key of some line. */
  lemma {:induction false} OpensFollowAppends(s: State, root: string, lines: seq<string>)
    requires HandleFits(s)
    ensures var p := Pass(s, root, lines);
      && s.opens <= p.opens
      && |p.opens| - |s.opens| <= p.counters.appended - s.counters.appended
      && forall k :: |s.opens| <= k < |p.opens| ==> p.opens[k] in Keys(lines)
    decreases |lines|
  {
    if lines != [] {
      var n := |lines| - 1;
      var prefix := lines[..n];
      OpensFollowAppends(s, root, prefix);
      PassKeepsHandleFit(s, root, prefix);
      var p := Pass(s, root, prefix);
      HandleStep(p, root, lines[n]);
      match Decide(p.files, root, RStrip(lines[n]))
      case Skipped => SkipBranch(p, root, lines[n]);
      case Linked => LinkBranch(p, root, lines[n]);
      case Appended => AppendBranch(p, root, lines[n]);
      forall x | x in Keys(prefix) ensures x in Keys(lines) {
        var i :| 0 <= i < n && Key(prefix[i]) == x;
        assert Key(lines[i]) == x;
      }
      assert Key(lines[n]) in Keys(lines);
    }
  }

  /** In grouped input, a line whose key differs from the previous line's has a key no earlier line has. */
  lemma FreshKey(lines: seq<string>, n: nat)
    requires Grouped(lines) && 0 < n < |lines|
    requires Key(lines[n - 1]) != Key(lines[n])
    ensures Key(lines[n]) !in Keys(lines[..n])
  {
    forall i | 0 <= i < n ensures Key(lines[..n][i]) != Key(lines[n]) {
      assert lines[..n][i] == lines[i];
    }
  }

  /** What a pass over grouped input keeps: no list opened twice, and the current key is opened exactly when the handle is open on it. */
  ghost predicate OpenedOnce(s: State) {
    && NoDuplicates(s.opens)
    && (s.prevDir.Some? ==> (s.prevDir.value in s.opens <==> s.handle == Open(s.prevDir.value)))
  }

  /** One line keeps OpenedOnce as long as a line that changes the key brings a key not opened before. */
  lemma OpensStep(s: State, root: string, line: string)
    requires HandleFits(s) && OpenedOnce(s)
    requires s.prevDir != Some(Key(line)) ==> Key(line) !in s.opens
    ensures OpenedOnce(Step(s, root, line))
  {
    HandleStep(s, root, line);
    var k := Key(line);
    var q := Step(s, root, line);
    if q.opens != s.opens {
      assert q.opens == s.opens + [k];
      assert k !in s.opens;
      forall i, j | 0 <= i < j < |q.opens| ensures q.opens[i] != q.opens[j] {
        if j == |s.opens| {
          assert q.opens[i] == s.opens[i];
        } else {
          assert q.opens[i] == s.opens[i] && q.opens[j] == s.opens[j];
        }
      }
    }
  }

  /** When lines sharing a partition key are contiguous, each list file is opened at most once in a run. */
  lemma {:induction false} GroupedOpensOnce(files: map<string, nat>, lists: map<string, seq<string>>,
                                            root: string, lines: seq<string>)
    requires Grouped(lines)
    ensures OpenedOnce(Pass(Start(files, lists), root, lines))
    decreases |lines|
  {
    if lines != [] {
      var n := |lines| - 1;
      var prefix := lines[..n];
      var line := lines[n];
      var k := Key(line);
      assert Grouped(prefix) by {
        forall i, j, l | 0 <= i < j < l < n
          ensures Key(prefix[i]) == Key(prefix[l]) ==> Key(prefix[j]) == Key(prefix[i])
        {
          assert prefix[i] == lines[i] && prefix[j] == lines[j] && prefix[l] == lines[l];
        }
      }
      GroupedOpensOnce(files, lists, root, prefix);
      var s0 := Start(files, lists);
      var p := Pass(s0, root, prefix);
      PassKeepsHandleFit(s0, root, prefix);
      if p.prevDir != Some(k) {
        if n == 0 {
          assert p.opens == [];
        } else {
          OpensFollowAppends(s0, root, prefix);
          assert prefix[n - 1] == lines[n - 1];
          FreshKey(lines, n);
        }
      }
      OpensStep(p, root, line);
      assert Pass(s0, root, lines) == Step(p, root, line);
    }
  }

  lemma {:induction false} LexLeAntisymmetric(a: string, b: string)
    requires LexLe(a, b) && LexLe(b, a)
    ensures a == b
    decreases |a|
  {
    if a != [] {
      LexLeAntisymmetric(a[1..], b[1..]);
      assert a == [a[0]] + a[1..] && b == [b[0]] + b[1..];
    }
  }

  /** Truncating both sides to the same length keeps the order. */
  lemma {:induction false} LexLeTruncate(a: string, b: string, n: nat)
    requires LexLe(a, b)
    ensures LexLe(a[..Min(n, |a|)], b[..Min(n, |b|)])
    decreases n
  {
    var a', b' := a[..Min(n, |a|)], b[..Min(n, |b|)];
    if n > 0 && a != [] {
      assert a'[0] == a[0] && b'[0] == b[0];
      if a[0] == b[0] {
        LexLeTruncate(a[1..], b[1..], n - 1);
        assert a'[1..] == a[1..][..Min(n - 1, |a| - 1)];
        assert b'[1..] == b[1..][..Min(n - 1, |b| - 1)];
      }
    }
  }

  /** A checksum file sorted by checksum lists each partition key in one contiguous run. */
  lemma SortedIsGrouped(lines: seq<string>)
    requires Sorted(lines)
    ensures Grouped(lines)
  {
    forall i, j, l | 0 <= i < j < l < |lines| && Key(lines[i]) == Key(lines[l])
      ensures Key(lines[j]) == Key(lines[i])
    {
      var a, b, c := RStrip(lines[i]), RStrip(lines[j]), RStrip(lines[l]);
      KeysSpec(a);
      KeysSpec(b);
      KeysSpec(c);
      LexLeTruncate(a, b, 3);
      LexLeTruncate(b, c, 3);
      LexLeAntisymmetric(Key(lines[i]), Key(lines[j]));
    }
  }
}
