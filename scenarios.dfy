/** Concrete runs of the manifest builder, worked out from the model one line at a time. */
module Scenarios {
  import opened Wrappers
  import opened Paths
  import opened Manifest

  const Root := "images"
  const Input: seq<string> := ["abc123\n", "abc456\n", "xyz789\n"]
  const NoLists: map<string, seq<string>> := map[]

  /** The states after one, two and three lines when neither tree holds any image. */
  const After1 := State(Some("abc"), Open("abc"), ["abc"], Counters(0, 0, 1, 1), map[],
                        map["abc" := ["abc/123/abc123.jpg\n"]])
  const After2 := State(Some("abc"), Open("abc"), ["abc"], Counters(0, 0, 2, 2), map[],
                        map["abc" := ["abc/123/abc123.jpg\n", "abc/456/abc456.jpg\n"]])
  const After3 := State(Some("xyz"), Open("xyz"), ["abc", "xyz"], Counters(0, 0, 3, 3), map[],
                        map["abc" := ["abc/123/abc123.jpg\n", "abc/456/abc456.jpg\n"],
                            "xyz" := ["xyz/789/xyz789.jpg\n"]])

  /** A six-character checksum line ending in a newline, with the key, sub-key and path it yields. */
  lemma LineParts(line: string, checksum: string, dir: string, subdir: string)
    requires |checksum| == 6 && !IsSpace(checksum[5]) && line == checksum + "\n"
    requires checksum[..3] == dir && checksum[3..] == subdir
    ensures RStrip(line) == checksum
    ensures PartitionKey(checksum) == dir && SubKey(checksum) == subdir
    ensures RelativePath(checksum) + "\n" == dir + "/" + subdir + "/" + checksum + ".jpg\n"
  {
    RStripLine(checksum, "\n");
  }

  lemma FirstLine()
    ensures Step(Start(map[], NoLists), Root, Input[0]) == After1
  {
    LineParts(Input[0], "abc123", "abc", "123");
    var s := Start(map[], NoLists);
    assert RelativePath("abc123") + "\n" == "abc/123/abc123.jpg\n";
    assert Decide(s.files, Root, "abc123") == Appended;
    AppendBranch(s, Root, Input[0]);
    HandleStep(s, Root, Input[0]);
    var t := Step(s, Root, Input[0]);
    assert ListContents(NoLists, "abc") + ["abc/123/abc123.jpg\n"] == ["abc/123/abc123.jpg\n"];
    assert t.lists == After1.lists;
    assert t.opens == After1.opens;
    assert t.counters == After1.counters;
    assert t.handle == After1.handle;
    assert t.prevDir == After1.prevDir;
    assert t.files == After1.files;
  }

  lemma SecondLine()
    ensures Step(After1, Root, Input[1]) == After2
  {
    LineParts(Input[1], "abc456", "abc", "456");
    assert RelativePath("abc456") + "\n" == "abc/456/abc456.jpg\n";
    assert Decide(After1.files, Root, "abc456") == Appended;
    AppendBranch(After1, Root, Input[1]);
    HandleStep(After1, Root, Input[1]);
    var t := Step(After1, Root, Input[1]);
    assert ListContents(After1.lists, "abc") + ["abc/456/abc456.jpg\n"]
        == ["abc/123/abc123.jpg\n", "abc/456/abc456.jpg\n"];
    assert t.lists == After2.lists;
    assert t.opens == After2.opens;
    assert t.counters == After2.counters;
    assert t.handle == After2.handle;
    assert t.prevDir == After2.prevDir;
    assert t.files == After2.files;
  }

  lemma ThirdLine()
    ensures Step(After2, Root, Input[2]) == After3
  {
    LineParts(Input[2], "xyz789", "xyz", "789");
    assert RelativePath("xyz789") + "\n" == "xyz/789/xyz789.jpg\n";
    assert Decide(After2.files, Root, "xyz789") == Appended;
    AppendBranch(After2, Root, Input[2]);
    HandleStep(After2, Root, Input[2]);
    var t := Step(After2, Root, Input[2]);
    assert "xyz"[0] != "abc"[0];
    assert ListContents(After2.lists, "xyz") + ["xyz/789/xyz789.jpg\n"] == ["xyz/789/xyz789.jpg\n"];
    assert t.lists == After3.lists;
    assert After2.opens + ["xyz"] == After3.opens;
    assert t.opens == After3.opens;
    assert t.counters == After3.counters;
    assert t.handle == After3.handle;
    assert t.prevDir == After3.prevDir;
    assert t.files == After3.files;
  }

  /**
   * Nothing exists yet: all three checksums are listed, two under "abc" in input order and
   * one under "xyz"; counters skipped=0, linked=0, appended=3, total=3.
   */
  lemma EverythingDownloaded()
    ensures var r := Pass(Start(map[], NoLists), Root, Input);
      && r.counters == Counters(0, 0, 3, 3)
      && r.lists == map["abc" := ["abc/123/abc123.jpg\n", "abc/456/abc456.jpg\n"],
                        "xyz" := ["xyz/789/xyz789.jpg\n"]]
      && r.opens == ["abc", "xyz"]
  {
    FirstLine();
    SecondLine();
    ThirdLine();
    var s0 := Start(map[], NoLists);
    assert Input[..1][..0] == [];
    assert Pass(s0, Root, Input[..1]) == After1;
    assert Input[..2][..1] == Input[..1];
    assert Pass(s0, Root, Input[..2]) == After2;
    assert Input[..3][..2] == Input[..2] && Input[..3] == Input;
    assert Pass(s0, Root, Input) == After3;
  }

  /** The same input when the destination tree already holds the first image, `images/abc/123/abc123.jpg`. */
  const Present: map<string, nat> := map[Destination(Root, "abc123") := 7]

  /** Under the relative root `images`, a checksum's destination and source spelled out. */
  lemma ImagePaths(checksum: string)
    requires checksum != [] && checksum[0] != '/'
    ensures Destination(Root, checksum) == Root + "/" + RelativePath(checksum)
    ensures Source(Root, checksum) == "../" + Root + "/" + RelativePath(checksum)
  {
    assert RelativePath(checksum)[0] == checksum[0];
  }

  /** Every other six-character checksum is neither in the destination tree nor in the source tree. */
  lemma OnlyFirstPresent(checksum: string)
    requires |checksum| == 6 && checksum[0] != '/' && checksum != "abc123"
    ensures Decide(Present, Root, checksum) == Appended
  {
    ImagePaths(checksum);
    ImagePaths("abc123");
    assert Destination(Root, checksum) !in Present by {
      if Destination(Root, checksum) == Destination(Root, "abc123") {
        JoinInjective(Root, RelativePath(checksum), RelativePath("abc123"));
        RelativePathInjective(checksum, "abc123");
      }
    }
    assert Source(Root, checksum) !in Present by {
      RelativePathSpec(checksum);
      RelativePathSpec("abc123");
      assert |Source(Root, checksum)| != |Destination(Root, "abc123")|;
    }
  }

  const Skip1 := State(Some("abc"), Closed, [], Counters(1, 0, 0, 1), Present, map[])
  const Skip2 := State(Some("abc"), Open("abc"), ["abc"], Counters(1, 0, 1, 2), Present,
                       map["abc" := ["abc/456/abc456.jpg\n"]])
  const Skip3 := State(Some("xyz"), Open("xyz"), ["abc", "xyz"], Counters(1, 0, 2, 3), Present,
                       map["abc" := ["abc/456/abc456.jpg\n"], "xyz" := ["xyz/789/xyz789.jpg\n"]])

  lemma FirstLineSkipped()
    ensures Step(Start(Present, NoLists), Root, Input[0]) == Skip1
  {
    LineParts(Input[0], "abc123", "abc", "123");
    var s := Start(Present, NoLists);
    SkipBranch(s, Root, Input[0]);
    HandleStep(s, Root, Input[0]);
  }

  lemma SecondLineAppended()
    ensures Step(Skip1, Root, Input[1]) == Skip2
  {
    LineParts(Input[1], "abc456", "abc", "456");
    assert RelativePath("abc456") + "\n" == "abc/456/abc456.jpg\n";
    OnlyFirstPresent("abc456");
    AppendBranch(Skip1, Root, Input[1]);
    HandleStep(Skip1, Root, Input[1]);
    var t := Step(Skip1, Root, Input[1]);
    assert ListContents(Skip1.lists, "abc") + ["abc/456/abc456.jpg\n"] == ["abc/456/abc456.jpg\n"];
    assert t.lists == Skip2.lists;
    assert Skip1.opens + ["abc"] == Skip2.opens;
    assert t.opens == Skip2.opens;
    assert t.counters == Skip2.counters;
    assert t.handle == Skip2.handle;
  }

  lemma ThirdLineAppended()
    ensures Step(Skip2, Root, Input[2]) == Skip3
  {
    LineParts(Input[2], "xyz789", "xyz", "789");
    assert RelativePath("xyz789") + "\n" == "xyz/789/xyz789.jpg\n";
    OnlyFirstPresent("xyz789");
    AppendBranch(Skip2, Root, Input[2]);
    HandleStep(Skip2, Root, Input[2]);
    var t := Step(Skip2, Root, Input[2]);
    assert "xyz"[0] != "abc"[0];
    assert ListContents(Skip2.lists, "xyz") + ["xyz/789/xyz789.jpg\n"] == ["xyz/789/xyz789.jpg\n"];
    assert t.lists == Skip3.lists;
    assert Skip2.opens + ["xyz"] == Skip3.opens;
    assert t.opens == Skip3.opens;
    assert t.counters == Skip3.counters;
    assert t.handle == Skip3.handle;
  }

  /** The destination already holds `abc/123/abc123.jpg`: that line is skipped; skipped=1, appended=2, total=3. */
  lemma FirstAlreadyPresent()
    ensures var r := Pass(Start(Present, NoLists), Root, Input);
      && r.counters == Counters(1, 0, 2, 3)
      && r.files == Present
      && r.lists == map["abc" := ["abc/456/abc456.jpg\n"], "xyz" := ["xyz/789/xyz789.jpg\n"]]
  {
    FirstLineSkipped();
    SecondLineAppended();
    ThirdLineAppended();
    var s0 := Start(Present, NoLists);
    assert Input[..1][..0] == [];
    assert Pass(s0, Root, Input[..1]) == Skip1;
    assert Input[..2][..1] == Input[..1];
    assert Pass(s0, Root, Input[..2]) == Skip2;
    assert Input[..3][..2] == Input[..2] && Input[..3] == Input;
    assert Pass(s0, Root, Input) == Skip3;
  }
}
