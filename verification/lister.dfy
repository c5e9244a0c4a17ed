/** `list_files`: the directory listing, directories first, as tagged display
    strings. */
module Lister {
  import opened Strings

  /** One enumerated child of a directory and whether `isdir` held for it. */
  datatype Item = Item(name: string, isDir: bool)

  /** What enumerating a directory produced: its children in the order the
      filesystem reported them, or the failure that was raised. */
  datatype Enumeration =
    | Enumerated(items: seq<Item>)
    | PermissionDenied
    | Failed(reason: string)

  /** The pair `list_files` returns: the display entries and the count shown
      to the user. */
  datatype Listing = Listing(files: seq<string>, count: int)

  const DirTag: string := "[D] "
  const FileTag: string := "[F] "
  const ErrorTag: string := "[Error] "
  /** Entries are tested for being directories by this prefix alone. */
  const DirMarker: string := "[D]"
  /** Number of characters removed from an entry to recover its name. */
  const TagLength: nat := 4

  /** The display entry of one child. */
  function Tag(it: Item): string {
    (if it.isDir then DirTag else FileTag) + it.name
  }

  predicate IsDirEntry(entry: string) {
    StartsWith(entry, DirMarker)
  }

  /** `entry[4:]`: the name the explorer joins to the current directory. */
  function EntryName(entry: string): string {
    Drop(entry, TagLength)
  }

  /** Tagging then stripping gives back the enumerated name, and the tag tells
      directories from files. */
  lemma TagRoundTrip(it: Item)
    ensures EntryName(Tag(it)) == it.name
    ensures IsDirEntry(Tag(it)) <==> it.isDir
  {
    DropPrefix(if it.isDir then DirTag else FileTag, it.name);
    assert Tag(it)[..3] == (if it.isDir then DirTag else FileTag)[..3];
    assert Tag(it)[1] == if it.isDir then 'D' else 'F';
  }

  /** The entries of the children of one kind, in enumeration order: the list
      `dirs` (kind true) or `files` (kind false) after the loop. */
  function Group(items: seq<Item>, dirs: bool): seq<string>
    decreases |items|
  {
    if items == [] then []
    else
      var last := items[|items| - 1];
      Group(items[..|items| - 1], dirs) + (if last.isDir == dirs then [Tag(last)] else [])
  }

  /** The number of children of one kind. */
  function GroupSize(items: seq<Item>, dirs: bool): nat
    decreases |items|
  {
    if items == [] then 0
    else GroupSize(items[..|items| - 1], dirs) + (if items[|items| - 1].isDir == dirs then 1 else 0)
  }

  /** `dirs + files` */
  function Partition(items: seq<Item>): seq<string> {
    Group(items, true) + Group(items, false)
  }

  /** The listing `list_files` returns for an enumeration outcome. */
  function ListFiles(e: Enumeration): (r: Listing)
    ensures e.Enumerated? ==> r.files == Partition(e.items)
    ensures e.Enumerated? ==> r.count == |r.files| == |e.items|
    ensures !e.Enumerated? ==> |r.files| == 1 && StartsWith(r.files[0], "[Error]") && r.count == 0
  {
    match e
    case Enumerated(items) =>
      PartitionLength(items);
      var all := Partition(items);
      Listing(all, |all|)
    case PermissionDenied =>
      Listing([ErrorTag + "Permission denied"], 0)
    case Failed(reason) =>
      assert (ErrorTag + reason)[..7] == "[Error]";
      Listing([ErrorTag + reason], 0)
  }

  /** The loop of `list_files`: one pass appending each child to `dirs` or to
      `files`, then the concatenation and its length. */
  method Scan(e: Enumeration) returns (files: seq<string>, count: int)
    ensures Listing(files, count) == ListFiles(e)
  {
    if e.PermissionDenied? {
      return [ErrorTag + "Permission denied"], 0;
    } else if e.Failed? {
      return [ErrorTag + e.reason], 0;
    }
    var items := e.items;
    var dirs: seq<string> := [];
    var plain: seq<string> := [];
    var i := 0;
    while i < |items|
      invariant 0 <= i <= |items|
      invariant dirs == Group(items[..i], true)
      invariant plain == Group(items[..i], false)
    {
      assert items[..i + 1][..i] == items[..i];
      var item := items[i];
      if item.isDir {
        dirs := dirs + [Tag(item)];
      } else {
        plain := plain + [Tag(item)];
      }
      i := i + 1;
    }
    assert items[..i] == items;
    files := dirs + plain;
    count := |dirs + plain|;
  }

  /** Each group holds exactly the children of its kind. */
  lemma {:induction false} GroupShape(items: seq<Item>, dirs: bool)
    ensures |Group(items, dirs)| == GroupSize(items, dirs)
    ensures forall k :: 0 <= k < |Group(items, dirs)| ==> (IsDirEntry(Group(items, dirs)[k]) <==> dirs)
    decreases |items|
  {
    if items != [] {
      var init := items[..|items| - 1];
      GroupShape(init, dirs);
      TagRoundTrip(items[|items| - 1]);
    }
  }

  /** The two groups together hold one entry per child. */
  lemma {:induction false} PartitionLength(items: seq<Item>)
    ensures |Partition(items)| == GroupSize(items, true) + GroupSize(items, false) == |items|
    decreases |items|
  {
    GroupShape(items, true);
    GroupShape(items, false);
    if items != [] {
      PartitionLength(items[..|items| - 1]);
    }
  }

  /** Where the child at `i` lands inside its group: after every earlier child
      of the same kind. */
  lemma {:induction false} GroupPositions(items: seq<Item>, dirs: bool)
    ensures forall i :: 0 <= i < |items| && items[i].isDir == dirs ==>
      GroupSize(items[..i], dirs) < |Group(items, dirs)| &&
      Group(items, dirs)[GroupSize(items[..i], dirs)] == Tag(items[i])
    decreases |items|
  {
    GroupShape(items, dirs);
    if items != [] {
      var n := |items|;
      var init := items[..n - 1];
      GroupPositions(init, dirs);
      GroupShape(init, dirs);
      forall i | 0 <= i < n && items[i].isDir == dirs
        ensures GroupSize(items[..i], dirs) < |Group(items, dirs)|
        ensures Group(items, dirs)[GroupSize(items[..i], dirs)] == Tag(items[i])
      {
        if i < n - 1 {
          assert items[..i] == init[..i];
          assert items[i] == init[i];
        } else {
          assert items[..i] == init;
        }
      }
    }
  }

  /** The rank of child `i` in the listing: directories are numbered first,
      files after all directories, each in enumeration order. */
  function Rank(items: seq<Item>, i: nat): nat
    requires i < |items|
  {
    if items[i].isDir then GroupSize(items[..i], true)
    else GroupSize(items, true) + GroupSize(items[..i], false)
  }

  /** Every child appears in the listing exactly at its rank. */
  lemma PartitionPositions(items: seq<Item>)
    ensures |Partition(items)| == |items|
    ensures forall i :: 0 <= i < |items| ==>
      Rank(items, i) < |items| && Partition(items)[Rank(items, i)] == Tag(items[i])
  {
    PartitionLength(items);
    GroupShape(items, true);
    GroupPositions(items, true);
    GroupPositions(items, false);
  }

  /** Two children of the same kind keep their relative order, so distinct
      children never share a rank. */
  lemma StableOrder(items: seq<Item>, i: nat, j: nat)
    requires i < j < |items| && items[i].isDir == items[j].isDir
    ensures Rank(items, i) < Rank(items, j)
  {
    var dirs := items[i].isDir;
    GroupPositions(items[..j], dirs);
    GroupShape(items[..j], dirs);
    assert items[..j][..i] == items[..i];
    assert items[..j][i] == items[i];
  }

  /** No directory entry follows a file entry. */
  lemma DirsBeforeFiles(items: seq<Item>)
    ensures forall i, j :: 0 <= i < j < |Partition(items)| && IsDirEntry(Partition(items)[j]) ==>
      IsDirEntry(Partition(items)[i])
  {
    GroupShape(items, true);
    GroupShape(items, false);
  }

  /** The listing is a permutation of the children's tags: every enumerated
      name appears exactly as many times as it was enumerated. */
  lemma {:induction false} PartitionPermutes(items: seq<Item>)
    ensures multiset(Partition(items)) == multiset(seq(|items|, i requires 0 <= i < |items| => Tag(items[i])))
    decreases |items|
  {
    var tags := seq(|items|, i requires 0 <= i < |items| => Tag(items[i]));
    if items != [] {
      var n := |items|;
      var init := items[..n - 1];
      PartitionPermutes(init);
      var initTags := seq(|init|, i requires 0 <= i < |init| => Tag(init[i]));
      assert tags == initTags + [Tag(items[n - 1])];
    }
  }
}
