/** What Enter on a file entry does: classify the name, run the Python menu's
    prompt loop, and guard the dependency install. External processes appear
    only as the effect that would start them. */
module Dispatch {
  import opened Paths
  import opened Strings
  import opened FileSystem

  /** The branch of the Enter handling in `main` (Source/file_xplorer.py,
      lines 178-209) that a file name selects. */
  datatype Action = PythonMenu | ShellScript | InstallManifest | Unsupported

  datatype MenuOption = RunOption | EditOption | BackOption

  /** Either every answer given so far was rejected (the loop is still
      prompting), or the option chosen and how many answers were read. */
  datatype MenuAnswer = StillPrompting | Chosen(option: MenuOption, used: nat)

  /** What handling the file ends in. */
  datatype Effect =
    | RunPython(path: Path)
    | EditPython(path: Path)
    | BackToListing
    | RunShell(path: Path)
    | RunInstaller(path: Path)
    | ReportMissing(path: Path)
    | ReportNoAction(name: string)
    | AwaitingAnswer

  const Manifest: string := "requirements.txt"

  /** First match wins on `.py`, then `.sh`, then the exact manifest name.
      No name has two of these properties, so the order of the tests never
      decides anything: each class is described by its own test alone. */
  function Classify(name: string): (a: Action)
    ensures a == PythonMenu <==> EndsWith(name, ".py")
    ensures a == ShellScript <==> EndsWith(name, ".sh")
    ensures a == InstallManifest <==> name == Manifest
    ensures a == Unsupported <==> !EndsWith(name, ".py") && !EndsWith(name, ".sh") && name != Manifest
  {
    ExtensionsExclusive(name);
    if EndsWith(name, ".py") then PythonMenu
    else if EndsWith(name, ".sh") then ShellScript
    else if name == Manifest then InstallManifest
    else Unsupported
  }

  /** The three tests of the dispatcher are mutually exclusive. */
  lemma ExtensionsExclusive(name: string)
    ensures !(EndsWith(name, ".py") && EndsWith(name, ".sh"))
    ensures name == Manifest ==> !EndsWith(name, ".py") && !EndsWith(name, ".sh")
  {
  }

  predicate ValidAnswer(answer: string) {
    answer == "1" || answer == "2" || answer == "3"
  }

  function OptionOf(answer: string): MenuOption
    requires ValidAnswer(answer)
  {
    if answer == "1" then RunOption else if answer == "2" then EditOption else BackOption
  }

  /** The Python menu loop in `main` (Source/file_xplorer.py, lines 187-200):
      prompt until an answer is "1", "2" or "3". */
  function ChooseOption(answers: seq<string>): (r: MenuAnswer)
    ensures r.StillPrompting? <==> forall i :: 0 <= i < |answers| ==> !ValidAnswer(answers[i])
    ensures r.Chosen? ==>
      && 1 <= r.used <= |answers|
      && ValidAnswer(answers[r.used - 1])
      && r.option == OptionOf(answers[r.used - 1])
      && forall i :: 0 <= i < r.used - 1 ==> !ValidAnswer(answers[i])
    decreases |answers|
  {
    if answers == [] then StillPrompting
    else if ValidAnswer(answers[0]) then Chosen(OptionOf(answers[0]), 1)
    else
      match ChooseOption(answers[1..])
      case StillPrompting => StillPrompting
      case Chosen(option, used) => Chosen(option, used + 1)
  }

  /** Rejected answers before a valid one make no difference to the choice. */
  lemma {:induction false} RejectedAnswersIgnored(rejected: seq<string>, rest: seq<string>)
    requires forall i :: 0 <= i < |rejected| ==> !ValidAnswer(rejected[i])
    ensures ChooseOption(rejected + rest) ==
      match ChooseOption(rest)
      case StillPrompting => StillPrompting
      case Chosen(option, used) => Chosen(option, used + |rejected|)
    decreases |rejected|
  {
    if rejected == [] {
      assert rejected + rest == rest;
    } else {
      var all := rejected + rest;
      assert all[0] == rejected[0];
      assert all[1..] == rejected[1..] + rest;
      RejectedAnswersIgnored(rejected[1..], rest);
    }
  }

  /** `install_requirements` (Source/file_xplorer.py, lines 110-122): the
      installer is started only for a manifest that
      exists; a missing one is reported instead. */
  function InstallRequirements(fs: FileSystem, path: Path): (e: Effect)
    ensures e.RunInstaller? <==> path in fs
    ensures e.RunInstaller? || e.ReportMissing?
    ensures e.path == path
  {
    if path !in fs then ReportMissing(path) else RunInstaller(path)
  }

  /** The effect the Python menu's chosen option leads to. */
  function MenuEffect(option: MenuOption, path: Path): Effect {
    match option
    case RunOption => RunPython(path)
    case EditOption => EditPython(path)
    case BackOption => BackToListing
  }

  /** The Enter handling in `main` for a file (Source/file_xplorer.py, lines
      178-209), for a file `name` at `path`: the effect and how many
      answers the menu read. */
  function DispatchFile(name: string, path: Path, answers: seq<string>, fs: FileSystem): (r: (Effect, nat))
    ensures r.1 <= |answers|
    ensures r.1 > 0 ==> Classify(name) == PythonMenu
    ensures r.0.RunInstaller? ==> name == Manifest && path in fs
    ensures r.0.RunPython? || r.0.EditPython? ==> EndsWith(name, ".py") && r.0.path == path
    ensures r.0.RunShell? ==> EndsWith(name, ".sh") && !EndsWith(name, ".py")
    ensures r.0.ReportNoAction? <==> Classify(name) == Unsupported
    ensures EndsWith(name, ".py") && ChooseOption(answers).StillPrompting? ==> r == (AwaitingAnswer, |answers|)
    ensures EndsWith(name, ".py") && ChooseOption(answers).Chosen? ==>
      r.1 == ChooseOption(answers).used &&
      r.0 == MenuEffect(ChooseOption(answers).option, path)
    ensures EndsWith(name, ".sh") ==> r == (RunShell(path), 0)
    ensures name == Manifest && path in fs ==> r == (RunInstaller(path), 0)
    ensures name == Manifest && path !in fs ==> r == (ReportMissing(path), 0)
    ensures Classify(name) == Unsupported ==> r == (ReportNoAction(name), 0)
  {
    match Classify(name)
    case PythonMenu =>
      (match ChooseOption(answers)
       case StillPrompting => (AwaitingAnswer, |answers|)
       case Chosen(option, used) => (MenuEffect(option, path), used))
    case ShellScript => (RunShell(path), 0)
    case InstallManifest => (InstallRequirements(fs, path), 0)
    case Unsupported => (ReportNoAction(name), 0)
  }

  /** For a Python file, answers rejected before the rest change only how
      many answers are read, never the effect. */
  lemma DispatchSkipsRejectedAnswers(name: string, path: Path, rejected: seq<string>, rest: seq<string>, fs: FileSystem)
    requires EndsWith(name, ".py")
    requires forall i :: 0 <= i < |rejected| ==> !ValidAnswer(rejected[i])
    ensures DispatchFile(name, path, rejected + rest, fs).0 == DispatchFile(name, path, rest, fs).0
    ensures DispatchFile(name, path, rejected + rest, fs).1 == |rejected| + DispatchFile(name, path, rest, fs).1
  {
    RejectedAnswersIgnored(rejected, rest);
  }

  /** An external process is started only for a file of the matching kind,
      and the installer exactly when the selected manifest exists. */
  lemma DispatchStartsOnlyMatchingProcess(name: string, path: Path, answers: seq<string>, fs: FileSystem)
    ensures var e := DispatchFile(name, path, answers, fs).0;
      && (e.RunPython? || e.EditPython? ==> Classify(name) == PythonMenu && e.path == path)
      && (e.RunShell? ==> Classify(name) == ShellScript && e.path == path)
      && (e.RunInstaller? ==> Classify(name) == InstallManifest && path in fs && e.path == path)
      && (Classify(name) == InstallManifest ==> (e.RunInstaller? <==> path in fs))
  {
  }
}
