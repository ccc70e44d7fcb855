/**
 * The pure part of the manifest builder: turning one line of the checksum file into
 * the relative path `dir/subdir/checksum.jpg`, and placing that path under a root
 * directory the way POSIX `os.path.join` does.
 */
module Paths {

  function Min(a: int, b: int): int { if a <= b then a else b }

  /** The characters Python's `str.isspace` accepts, hence the ones `str.rstrip()` removes. */
  predicate IsSpace(c: char) {
    || c == ' '
    || ('\t' <= c <= '\r')
    || ('\U{1C}' <= c <= '\U{1F}')
    || c == '\U{85}' || c == '\U{A0}' || c == '\U{1680}'
    || ('\U{2000}' <= c <= '\U{200A}')
    || c == '\U{2028}' || c == '\U{2029}' || c == '\U{202F}' || c == '\U{205F}' || c == '\U{3000}'
  }

  /** `line.rstrip()`: `s` without its trailing whitespace. */
  function RStrip(s: string): string
    decreases |s|
  {
    if s != [] && IsSpace(s[|s| - 1]) then RStrip(s[..|s| - 1]) else s
  }

  /** What `rstrip` promises: a prefix, ending in a non-space, with only whitespace removed. */
  lemma {:induction false} RStripSpec(s: string)
    ensures RStrip(s) <= s
    ensures RStrip(s) == [] || !IsSpace(RStrip(s)[|RStrip(s)| - 1])
    ensures forall i :: |RStrip(s)| <= i < |s| ==> IsSpace(s[i])
    decreases |s|
  {
    if s != [] && IsSpace(s[|s| - 1]) {
      RStripSpec(s[..|s| - 1]);
    }
  }

  /** The three properties of RStrip determine its result. */
  lemma RStripUnique(s: string, r: string)
    requires r <= s
    requires r == [] || !IsSpace(r[|r| - 1])
    requires forall i :: |r| <= i < |s| ==> IsSpace(s[i])
    ensures RStrip(s) == r
  {
    RStripSpec(s);
    var t := RStrip(s);
    assert |t| == |r|;
  }

  /** A checksum followed by a line terminator (or any trailing whitespace) strips back to the checksum. */
  lemma {:induction false} RStripLine(checksum: string, tail: string)
    requires checksum == [] || !IsSpace(checksum[|checksum| - 1])
    requires forall i :: 0 <= i < |tail| ==> IsSpace(tail[i])
    ensures RStrip(checksum + tail) == checksum
    decreases |tail|
  {
    if tail == [] {
      assert checksum + tail == checksum;
    } else {
      var n := |tail| - 1;
      var s := checksum + tail;
      assert s[|s| - 1] == tail[n];
      assert s[..|s| - 1] == checksum + tail[..n];
      RStripLine(checksum, tail[..n]);
    }
  }

  /** Python's `s[lo:hi]` for bounds `0 <= lo <= hi`: bounds past the end are clamped, never an error. */
  function Slice(s: string, lo: nat, hi: nat): string
    requires lo <= hi
  {
    if |s| <= lo then "" else if |s| <= hi then s[lo..] else s[lo..hi]
  }

  /** The partition key `dir = checksum[0:3]`: the list a download lands in and the top-level directory. */
  function PartitionKey(checksum: string): string {
    Slice(checksum, 0, 3)
  }

  /** The sub-key `subdir = checksum[3:6]`. */
  function SubKey(checksum: string): string {
    Slice(checksum, 3, 6)
  }

  /** `file_name = dir + '/' + subdir + '/' + checksum + '.jpg'`. */
  function RelativePath(checksum: string): string {
    PartitionKey(checksum) + "/" + SubKey(checksum) + "/" + checksum + ".jpg"
  }

  /**
   * The keys are the checksum's first three characters and the three after them, truncated
   * (never an error) when the checksum is shorter; together they are a prefix of the checksum.
   */
  lemma KeysSpec(checksum: string)
    ensures PartitionKey(checksum) == checksum[..Min(|checksum|, 3)]
    ensures |PartitionKey(checksum)| == Min(|checksum|, 3)
    ensures |SubKey(checksum)| == Min(|checksum|, 6) - Min(|checksum|, 3)
    ensures PartitionKey(checksum) + SubKey(checksum) == checksum[..Min(|checksum|, 6)]
  {
    assert PartitionKey(checksum) + SubKey(checksum) == checksum[..Min(|checksum|, 6)];
  }

  /** A relative path starts with its partition key and a separator, ends in ".jpg", and its length fixes that of the checksum. */
  lemma RelativePathSpec(checksum: string)
    ensures |RelativePath(checksum)| == Min(|checksum|, 6) + |checksum| + 6
    ensures PartitionKey(checksum) + "/" <= RelativePath(checksum)
    ensures RelativePath(checksum)[|RelativePath(checksum)| - 4..] == ".jpg"
  {
    KeysSpec(checksum);
  }

  /** Recovers the checksum from a relative path: its length fixes that of the checksum, which precedes ".jpg". */
  function ChecksumOfPath(name: string): string {
    if |name| < 6 then "" else
    var m := |name| - 6;
    var n := if m <= 12 then m / 2 else m - 6;
    name[|name| - 4 - n..|name| - 4]
  }

  lemma {:induction false} RelativePathRoundTrip(checksum: string)
    ensures ChecksumOfPath(RelativePath(checksum)) == checksum
  {
    KeysSpec(checksum);
    var name := RelativePath(checksum);
    var head := PartitionKey(checksum) + "/" + SubKey(checksum) + "/";
    assert name == head + checksum + ".jpg";
    assert name[|head|..|head| + |checksum|] == checksum;
  }

  /** Distinct checksums never share a relative path, so they never share a destination or a list entry. */
  lemma RelativePathInjective(c1: string, c2: string)
    requires RelativePath(c1) == RelativePath(c2)
    ensures c1 == c2
  {
    RelativePathRoundTrip(c1);
    RelativePathRoundTrip(c2);
  }

  predicate IsAbsolute(path: string) { |path| > 0 && path[0] == '/' }

  /** POSIX `os.path.join(a, b)`: an absolute `b` discards `a`; a separator is added unless `a` is empty or ends in one. */
  function Join(a: string, b: string): string {
    if IsAbsolute(b) then b
    else if a == [] || a[|a| - 1] == '/' then a + b
    else a + "/" + b
  }

  /** The name always ends the joined path; an absolute name replaces the root, otherwise the root starts the path. */
  lemma JoinSpec(a: string, b: string)
    ensures |b| <= |Join(a, b)| && Join(a, b)[|Join(a, b)| - |b|..] == b
    ensures IsAbsolute(b) ==> Join(a, b) == b
    ensures !IsAbsolute(b) ==> a <= Join(a, b) && |Join(a, b)| <= |a| + 1 + |b|
  {
  }

  /** Joining one root with two relative names gives two different paths unless the names are equal. */
  lemma JoinInjective(root: string, b1: string, b2: string)
    requires !IsAbsolute(b1) && !IsAbsolute(b2)
    requires Join(root, b1) == Join(root, b2)
    ensures b1 == b2
  {
    var sep := if root == [] || root[|root| - 1] == '/' then "" else "/";
    assert Join(root, b1) == (root + sep) + b1;
    assert Join(root, b2) == (root + sep) + b2;
    assert b1 == Join(root, b1)[|root + sep|..];
  }

  /** `ext_root_dir = os.path.join('..', int_root_dir)`: the mirrored tree one level up, or the root itself when it is absolute. */
  function SourceRoot(root: string): string {
    Join("..", root)
  }

  /** An absolute root is kept as it is; a relative one is placed under "..". */
  lemma SourceRootSpec(root: string)
    ensures IsAbsolute(root) ==> SourceRoot(root) == root
    ensures !IsAbsolute(root) ==> SourceRoot(root) == "../" + root
  {
  }

  /** With a relative root the mirrored source path of a relative name is never the destination path itself. */
  lemma SourceIsNotDestination(root: string, name: string)
    requires !IsAbsolute(root) && !IsAbsolute(name)
    ensures Join(SourceRoot(root), name) != Join(root, name)
  {
    var src := SourceRoot(root);
    SourceRootSpec(root);
    if root == [] {
      assert Join(src, name) == src + name;
    } else {
      assert src[|src| - 1] == root[|root| - 1];
    }
    assert |Join(src, name)| == |Join(root, name)| + 3;
  }

  /** With an absolute root the "source" path is the destination path itself. */
  lemma AbsoluteRootSourceIsDestination(root: string, name: string)
    requires IsAbsolute(root)
    ensures Join(SourceRoot(root), name) == Join(root, name)
  {
  }
}
