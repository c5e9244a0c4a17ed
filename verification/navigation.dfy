/** The navigation step of the explorer's main loop: one key applied to the
    current directory and cursor, given the listing drawn for that directory. */
module Navigation {
  import opened Paths
  import opened Lister
  import Keys
  import Strings

  /** `current_dir` and `selected_idx`. */
  datatype State = State(cur: Path, idx: int)

  /** What one key does: a new state (possibly the same one), handing the
      selected file to the action dispatcher, leaving the loop, or the
      `IndexError` raised by `files[selected_idx]`. */
  datatype Transition =
    | Moved(next: State)
    | Activate(path: Path, name: string)
    | Quit
    | Crash

  /** Either the input ends inside a key, or the transition of the first key
      and how many characters it used. */
  datatype StepResult = Blocked | Stepped(t: Transition, used: nat)

  /** The cursor is on an entry, or at 0 over an empty listing. */
  predicate ValidIdx(idx: int, files: seq<string>) {
    0 <= idx && (idx < |files| || idx == 0)
  }

  /** Python indexing `files[idx]`, negative indices counting from the end. */
  predicate InPyRange(files: seq<string>, idx: int) {
    -|files| <= idx < |files|
  }

  function PyIndex(files: seq<string>, idx: int): string
    requires InPyRange(files, idx)
  {
    if idx >= 0 then files[idx] else files[|files| + idx]
  }

  /** The effect of one decoded key on the state, as the if/elif chain of the
      main loop decides it. */
  function Apply(s: State, files: seq<string>, key: Keys.Key): (t: Transition)
    ensures t.Quit? <==> key == Keys.Quit
    ensures t.Crash? <==> key == Keys.Right && files != [] && !InPyRange(files, s.idx)
    ensures t.Activate? ==>
      key == Keys.Enter && 0 <= s.idx < |files| && !IsDirEntry(files[s.idx]) &&
      t.name == EntryName(files[s.idx]) && t.path == Join(s.cur, t.name)
    ensures key == Keys.Enter && 0 <= s.idx < |files| && !IsDirEntry(files[s.idx]) ==>
      t == Activate(Join(s.cur, EntryName(files[s.idx])), EntryName(files[s.idx]))
    ensures key == Keys.Up || key == Keys.Down ==>
      t.Moved? && t.next.cur == s.cur && -1 <= t.next.idx - s.idx <= 1
    ensures t.Moved? && t.next.cur != s.cur ==> t.next.idx == 0
    ensures t.Moved? && t.next != s ==>
      || (key == Keys.Up && t.next.idx == s.idx - 1 >= 0)
      || (key == Keys.Down && t.next.idx == s.idx + 1 < |files|)
      || (key == Keys.Left && t.next.cur == Parent(s.cur) != s.cur)
      || ((key == Keys.Right || key == Keys.Enter) && InPyRange(files, s.idx) &&
          IsDirEntry(PyIndex(files, s.idx)) && t.next.cur == Join(s.cur, EntryName(PyIndex(files, s.idx))))
    ensures ValidIdx(s.idx, files) ==> !t.Crash?
    ensures ValidIdx(s.idx, files) && t.Moved? && t.next.cur == s.cur ==> ValidIdx(t.next.idx, files)
  {
    match key
    case Up =>
      if s.idx > 0 then Moved(s.(idx := s.idx - 1)) else Moved(s)
    case Down =>
      if s.idx < |files| - 1 then Moved(s.(idx := s.idx + 1)) else Moved(s)
    case Right =>
      if files == [] then Moved(s)
      else if !InPyRange(files, s.idx) then Crash
      else
        var selected := PyIndex(files, s.idx);
        if IsDirEntry(selected) then Moved(State(Join(s.cur, EntryName(selected)), 0))
        else Moved(s)
    case Left =>
      var parent := Parent(s.cur);
      if parent != s.cur then Moved(State(parent, 0)) else Moved(s)
    case Quit => Quit
    case Enter =>
      if files != [] && 0 <= s.idx < |files| then
        var selected := files[s.idx];
        var name := EntryName(selected);
        if IsDirEntry(selected) then Moved(State(Join(s.cur, name), 0))
        else Activate(Join(s.cur, name), name)
      else Moved(s)
    case Ignored => Moved(s)
  }

  /** One iteration's input handling: read a key, then apply it. */
  function Step(s: State, files: seq<string>, keys: seq<char>): (r: StepResult)
    ensures r.Blocked? <==> Keys.Decode(keys).Partial?
    ensures r.Stepped? ==> 1 <= r.used <= |keys|
    ensures r.Stepped? ==> r.used == if keys[0] != Keys.Esc then 1 else if keys[1] != '[' then 2 else 3
    ensures r.Stepped? && r.t.Quit? <==> keys != [] && keys[0] == 'q'
    ensures keys != [] && keys[0] == 'q' ==> r == Stepped(Quit, 1)
  {
    match Keys.Decode(keys)
    case Partial => Blocked
    case Decoded(key, used) => Stepped(Apply(s, files, key), used)
  }

  /** How a run of the loop over a finite input ends. */
  datatype Outcome = Quitted(last: State) | Crashed(last: State) | AwaitingKey(last: State)

  /** The end of a run and the files handed to the dispatcher along the way. */
  datatype Session = Session(outcome: Outcome, activated: seq<Path>)

  /** The main loop over a key sequence, with the listing recomputed from
      `enumerate` before every key. Dispatching a file returns to the same
      state. */
  function Run(s: State, enumerate: Path -> Enumeration, keys: seq<char>): (r: Session)
    ensures keys != [] && keys[0] == 'q' ==> r == Session(Quitted(s), [])
    ensures r.outcome.Quitted? ==> 'q' in keys
    decreases |keys|
  {
    var files := ListFiles(enumerate(s.cur)).files;
    match Step(s, files, keys)
    case Blocked => Session(AwaitingKey(s), [])
    case Stepped(t, used) =>
      match t
      case Quit => Session(Quitted(s), [])
      case Crash => Session(Crashed(s), [])
      case Moved(next) => Run(next, enumerate, keys[used..])
      case Activate(path, _) =>
        var rest := Run(s, enumerate, keys[used..]);
        Session(rest.outcome, [path] + rest.activated)
  }

  /** ESC followed by anything but `[` is one ignored key of two characters:
      the second character, even a `q`, is consumed by it. */
  lemma EscSwallowsNext(s: State, enumerate: Path -> Enumeration, c: char, rest: seq<char>)
    requires c != '['
    ensures Run(s, enumerate, [Keys.Esc, c] + rest) == Run(s, enumerate, rest)
  {
  }

  /** When the directory contents do not change while browsing, a run that
      starts with the cursor in range never raises `IndexError`. */
  lemma {:induction false} RunNeverCrashes(s: State, enumerate: Path -> Enumeration, keys: seq<char>)
    requires ValidIdx(s.idx, ListFiles(enumerate(s.cur)).files)
    ensures !Run(s, enumerate, keys).outcome.Crashed?
    decreases |keys|
  {
    var files := ListFiles(enumerate(s.cur)).files;
    match Step(s, files, keys)
    case Blocked =>
    case Stepped(t, used) =>
      match t
      case Quit =>
      case Crash =>
      case Moved(next) =>
        RunNeverCrashes(next, enumerate, keys[used..]);
      case Activate(path, _) =>
        RunNeverCrashes(s, enumerate, keys[used..]);
  }

  /** Under the same condition the run ends with the cursor in range of the
      listing of the directory it ends in. */
  lemma {:induction false} RunKeepsCursorInRange(s: State, enumerate: Path -> Enumeration, keys: seq<char>)
    requires ValidIdx(s.idx, ListFiles(enumerate(s.cur)).files)
    ensures var last := Run(s, enumerate, keys).outcome.last;
      ValidIdx(last.idx, ListFiles(enumerate(last.cur)).files)
    decreases |keys|
  {
    var files := ListFiles(enumerate(s.cur)).files;
    match Step(s, files, keys)
    case Blocked =>
    case Stepped(t, used) =>
      match t
      case Quit =>
      case Crash =>
      case Moved(next) =>
        RunKeepsCursorInRange(next, enumerate, keys[used..]);
      case Activate(path, _) =>
        RunKeepsCursorInRange(s, enumerate, keys[used..]);
  }

  /** Left arrow at a root changes nothing; elsewhere it moves to the parent
      with the cursor on the first entry. */
  lemma LeftArrow(s: State, files: seq<string>)
    ensures IsRoot(s.cur) ==> Apply(s, files, Keys.Left) == Moved(s)
    ensures !IsRoot(s.cur) ==> Apply(s, files, Keys.Left) == Moved(State(Parent(s.cur), 0))
  {
  }

  /** Right arrow on anything but a directory entry, and on an empty listing,
      changes nothing; on a directory entry it descends. */
  lemma RightArrow(s: State, files: seq<string>)
    requires ValidIdx(s.idx, files)
    ensures files == [] ==> Apply(s, files, Keys.Right) == Moved(s)
    ensures files != [] && !IsDirEntry(files[s.idx]) ==> Apply(s, files, Keys.Right) == Moved(s)
    ensures files != [] && IsDirEntry(files[s.idx]) ==>
      Apply(s, files, Keys.Right) == Moved(State(Join(s.cur, EntryName(files[s.idx])), 0))
  {
  }

  /** Enter on a directory entry does what Right arrow does. */
  lemma EnterOnDirectory(s: State, files: seq<string>)
    requires 0 <= s.idx < |files| && IsDirEntry(files[s.idx])
    ensures Apply(s, files, Keys.Enter) == Apply(s, files, Keys.Right)
  {
  }

  /** Enter on a file entry in range hands its stripped name, joined to the
      current directory, to the dispatcher. */
  lemma EnterOnFile(s: State, files: seq<string>)
    requires 0 <= s.idx < |files| && !IsDirEntry(files[s.idx])
    ensures Apply(s, files, Keys.Enter) == Activate(Join(s.cur, EntryName(files[s.idx])), EntryName(files[s.idx]))
    ensures Apply(s, files, Keys.Right) == Moved(s)
  {
  }

  /** Up and Down keep the directory, never leave the listing's range, and on
      an empty listing change nothing. */
  lemma CursorMoves(s: State, files: seq<string>)
    requires ValidIdx(s.idx, files)
    ensures Apply(s, files, Keys.Up) == Moved(s.(idx := if s.idx > 0 then s.idx - 1 else 0))
    ensures Apply(s, files, Keys.Down) == Moved(s.(idx := if s.idx < |files| - 1 then s.idx + 1 else s.idx))
    ensures files == [] ==> Apply(s, files, Keys.Up) == Apply(s, files, Keys.Down) == Moved(s)
  {
  }

  /** Reading a recognised key's characters applies that key to the state
      and uses exactly those characters. */
  lemma StepAppliesKey(s: State, files: seq<string>, k: Keys.Key, rest: seq<char>)
    requires k != Keys.Ignored
    ensures Step(s, files, Keys.Encode(k) + rest) == Stepped(Apply(s, files, k), |Keys.Encode(k)|)
  {
    Keys.DecodeEncode(k, rest);
  }

  /** Any input read as an ignored key, including ESC `[` followed by a
      letter other than A to D, leaves the state as it is. */
  lemma StepIgnored(s: State, files: seq<string>, keys: seq<char>)
    requires Keys.Decode(keys).Decoded? && Keys.Decode(keys).key == Keys.Ignored
    ensures Step(s, files, keys) == Stepped(Moved(s), Keys.Decode(keys).used)
  {
  }

  /** Keys other than the arrows, Enter and `q` leave the state as it is. */
  lemma OtherKeys(s: State, files: seq<string>, keys: seq<char>)
    requires keys != [] && keys[0] !in [Keys.Esc, 'q', '\r']
    ensures Step(s, files, keys) == Stepped(Moved(s), 1)
  {
  }

  /** Descending into a directory entry and then pressing Left arrow returns
      to the directory the step started from. */
  lemma DescendThenAscend(s: State, files: seq<string>, other: seq<string>)
    requires 0 <= s.idx < |files| && IsDirEntry(files[s.idx])
    ensures Apply(s, files, Keys.Right).Moved?
    ensures Apply(Apply(s, files, Keys.Right).next, other, Keys.Left) == Moved(State(s.cur, 0))
  {
  }

  /** When enumeration fails the single error entry is still selectable:
      Enter strips four characters from it and hands the rest to the
      dispatcher as a file name. */
  lemma EnterOnErrorEntry(cur: Path)
    ensures ListFiles(PermissionDenied).count == 0
    ensures Apply(State(cur, 0), ListFiles(PermissionDenied).files, Keys.Enter)
      == Activate(Join(cur, "or] Permission denied"), "or] Permission denied")
  {
    var entry := ErrorTag + "Permission denied";
    assert entry == "[Err" + "or] Permission denied";
    Strings.DropPrefix("[Err", "or] Permission denied");
    assert entry[1] == 'E';
  }
}
