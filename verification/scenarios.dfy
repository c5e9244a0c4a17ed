/** End-to-end walks through the loop and the dispatcher on small directory
    trees. */
module Scenarios {
  import opened Paths
  import opened Lister
  import opened Navigation
  import opened Dispatch
  import opened FileSystem
  import Keys

  const DownKeys: seq<char> := Keys.Encode(Keys.Down)
  const LeftKeys: seq<char> := Keys.Encode(Keys.Left)

  /** A directory holding `sub/` and `run.py`, which the filesystem
      enumerates as `run.py` then `sub`; every other directory is empty. */
  function Tree(cur: Path): Path -> Enumeration {
    p => if p == cur then Enumerated([Item("run.py", false), Item("sub", true)]) else Enumerated([])
  }

  /** The directory is listed with `sub` first although it was enumerated
      second. */
  lemma TreeListing(cur: Path)
    ensures ListFiles(Tree(cur)(cur)).files == ["[D] sub", "[F] run.py"]
  {
    var items := [Item("run.py", false), Item("sub", true)];
    assert Tree(cur)(cur) == Enumerated(items);
    var first := [Item("run.py", false)];
    assert items[..1] == first && first[..0] == [];
    assert Group(first, true) == [];
    assert Group(first, false) == Group([], false) + [Tag(first[0])];
    assert Group(items, true) == [Tag(items[1])] && Group(items, false) == [Tag(items[0])];
    assert Tag(items[1]) == "[D] sub" && Tag(items[0]) == "[F] run.py";
  }

  /** Enter on the second entry hands `run.py` to the dispatcher. */
  lemma EnterOnScript(cur: Path)
    ensures Apply(State(cur, 1), ["[D] sub", "[F] run.py"], Keys.Enter) == Activate(Join(cur, "run.py"), "run.py")
  {
    var files := ["[D] sub", "[F] run.py"];
    TagRoundTrip(Item("run.py", false));
    assert files[1] == Tag(Item("run.py", false));
    EnterOnFile(State(cur, 1), files);
  }

  /** Down then Enter selects `run.py` (listed after the directory), and
      answering "1" runs it at its full path. */
  lemma DownEnterRunsScript(cur: Path, fs: FileSystem)
    ensures Run(State(cur, 0), Tree(cur), DownKeys + ['\r'])
      == Session(AwaitingKey(State(cur, 1)), [Join(cur, "run.py")])
    ensures DispatchFile("run.py", Join(cur, "run.py"), ["1"], fs) == (RunPython(Join(cur, "run.py")), 1)
  {
    TreeListing(cur);
    var listing := ["[D] sub", "[F] run.py"];
    var keys := DownKeys + ['\r'];
    Keys.DecodeEncode(Keys.Down, ['\r']);
    assert Step(State(cur, 0), listing, keys) == Stepped(Moved(State(cur, 1)), 3);
    assert keys[3..] == ['\r'];
    EnterOnScript(cur);
    assert Step(State(cur, 1), listing, ['\r']) == Stepped(Activate(Join(cur, "run.py"), "run.py"), 1);
    assert ['\r'][1..] == [];
    assert Run(State(cur, 1), Tree(cur), []) == Session(AwaitingKey(State(cur, 1)), []);
    assert Run(State(cur, 1), Tree(cur), ['\r']) == Session(AwaitingKey(State(cur, 1)), [Join(cur, "run.py")]);
    assert "run.py"[3..] == ".py";
  }

  /** A manifest that no longer exists is reported and nothing is installed. */
  lemma MissingManifest(path: Path, fs: FileSystem)
    requires path !in fs
    ensures DispatchFile(Manifest, path, [], fs) == (ReportMissing(path), 0)
  {
  }

  /** Left arrow at the root leaves directory and cursor as they were. */
  lemma LeftAtRoot(enumerate: Path -> Enumeration, idx: int)
    ensures Run(State([], idx), enumerate, LeftKeys)
      == Session(AwaitingKey(State([], idx)), [])
  {
  }
}
