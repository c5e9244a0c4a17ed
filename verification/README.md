# File Xplorer — a Dafny model of the navigation core

File Xplorer is a terminal file browser. It lists the current directory with
directories first, moves a cursor with the arrow keys, enters and leaves
directories, and on Enter acts on the selected file: a Python file gets a
Run/Edit/Back menu, a shell script is run, `requirements.txt` is installed
with pip, and any other file is reported as having no action. Editing copies
the file to a temporary file, opens an editor on it, and on a "y" answer keeps
the old content as `<file>.bak`.

This project models that core as pure functions over immutable data:

- `strings.dfy` (`Strings`): `startswith`, `endswith`, the slice `s[n:]` and
  ASCII `lower`.
- `paths.dfy` (`Paths`): a path is a sequence of components. `Join` appends a
  component, `Parent` drops the last one, and the empty path is the root and
  its own parent.
- `lister.dfy` (`Lister`): `list_files`. The enumeration outcome is an input:
  the children in filesystem order with their `isdir` flag, or the exception.
  Entries are kept as the tagged strings the program uses (`"[D] name"`,
  `"[F] name"`, `"[Error] …"`). `ListFiles` is the functional definition and
  `Scan` the loop that builds `dirs` and `files`.
- `keys.dfy` (`Keys`): decoding of the characters `getch` delivers. ESC is
  followed by one more read, and by a third only after `[`. An input that ends
  inside such a sequence is `Partial`, because the program keeps blocking.
- `navigation.dfy` (`Navigation`): one key applied to `(current_dir,
  selected_idx)` given the drawn listing (`Apply`, `Step`), and the loop over
  a key sequence with the listing recomputed each iteration (`Run`).
- `dispatch.dfy` (`Dispatch`): classifying a selected file by name, the Python
  menu's re-prompt loop over a sequence of answers, and the existence guard of
  the install. Starting a process is only an `Effect` value.
- `filesystem.dfy` (`FileSystem`) and `editing.dfy` (`Editing`): files as a
  map from path to content, and the save/backup decision of `edit_file`.
- `scenarios.dfy` (`Scenarios`): concrete walks through the loop and the
  dispatcher.

Behaviour the model keeps from the code:

- The count is 0 for an error listing, but navigation uses the length of the
  entry list, which is 1. So Enter on `"[Error] Permission denied"` drops four
  characters and hands `"or] Permission denied"` to the dispatcher as a file
  name (`Navigation.EnterOnErrorEntry`).
- `selected_idx` is never clamped when the listing is recomputed. Right arrow
  indexes `files[selected_idx]` without a range check. A stale index raises
  `IndexError`, which nothing catches (the `Crash` transition), and a negative
  one counts from the end as in Python. Enter checks the range first.
  `Navigation.RunNeverCrashes` shows that neither can happen while the
  directory contents stay the same during browsing.

Further behaviour of the code that the model keeps:

- After ESC the code blocks for one more character, and after ESC `[` for a
  third. A bare ESC therefore waits for input, and the model reports
  `Partial` until those characters arrive. ESC followed by anything but `[`
  consumes that second character, even a `q` (`Navigation.EscSwallowsNext`).
- Enter acts on the error entry, as shown above.
- Line 103 is outside any `finally`, so the temporary file is removed only
  when no exception is raised. The model claims the removal on that path
  only.

## Model

| member | source | states |
|---|---|---|
| Strings.DropPrefix | Source/file_xplorer.py:171 | dropping as many characters as a prefix has gives back exactly what followed the prefix, which is how `s[4:]` recovers a name after its four-character tag |
| Strings.LowerIsY | Source/file_xplorer.py:90 | the save test `answer.lower() == 'y'` accepts exactly the answers "y" and "Y" |
| Paths.Join | Source/file_xplorer.py:158 | the joined path is never a root, its parent is the directory it was joined to, and its last component is the child's name |
| Paths.Parent | Source/file_xplorer.py:162-163 | a path is its own parent exactly when it is the root, so the guard on line 163 stops ascent only there; every other path is its parent extended by its last component |
| Lister.TagRoundTrip | Source/file_xplorer.py:38-40 | stripping four characters from a tagged entry gives back the enumerated name, and the `[D]` test holds exactly for directories |
| Lister.ListFiles | Source/file_xplorer.py:28-46 | a successful listing has one entry per child and a count equal to its length; a failed one has exactly one entry starting with `[Error]` and count 0 |
| Lister.Scan | Source/file_xplorer.py:30-46 | the append loop over the enumeration produces exactly the listing `ListFiles` defines, on success and on both kinds of failure |
| Lister.GroupShape | Source/file_xplorer.py:37-40 | the `dirs` list holds one `[D]` entry per directory child and the `files` list one non-`[D]` entry per other child |
| Lister.PartitionLength | Source/file_xplorer.py:42 | `dirs + files` has exactly as many entries as there were children |
| Lister.GroupPositions | Source/file_xplorer.py:35-40 | within its group, each child sits at the position given by the number of earlier children of the same kind |
| Lister.PartitionPositions | Source/file_xplorer.py:35-42 | every child appears in the listing at its rank: directories numbered first, files after all directories, each in enumeration order |
| Lister.StableOrder | Source/file_xplorer.py:35-42 | two children of the same kind keep their enumeration order in the listing, so no two children share a position |
| Lister.DirsBeforeFiles | Source/file_xplorer.py:42 | no directory entry follows a non-directory entry in the listing |
| Lister.PartitionPermutes | Source/file_xplorer.py:35-42 | the listing is a permutation of the children's tagged names, so every enumerated name appears exactly as often as it was enumerated |
| Keys.Decode | Source/file_xplorer.py:143-150 | a key is read from the front of the input; it is unfinished exactly when the input is empty or stops after ESC or ESC `[`; a key uses one character unless it starts with ESC, two when ESC is not followed by `[`, and three otherwise; a recognised key used exactly its encoding, and input decoded as an ignored key starts with no recognised key's encoding |
| Keys.DecodeEncode | Source/file_xplorer.py:146-168 | each arrow key, `q` and carriage return is decoded back from its own encoding whatever input follows |
| Navigation.Apply | Source/file_xplorer.py:146-176 | only `q` quits; only Right arrow on a non-empty listing with the index out of Python range faults; Enter on an in-range entry without the `[D]` tag activates it, by its stripped name under the current directory, and nothing else activates; any change of state is the one its key allows; a cursor in range stays in range and never faults |
| Navigation.Step | Source/file_xplorer.py:143-176 | a step blocks exactly when the input ends inside a key; otherwise it uses one, two or three characters as the ESC tests decide, and it quits, using one character, exactly when the input starts with `q` |
| Navigation.Run | Source/file_xplorer.py:128-176 | a run whose input starts with `q` quits at once in the start state with nothing dispatched, and a run can end in a quit only if its input contains `q` |
| Navigation.EscSwallowsNext | Source/file_xplorer.py:146-149 | ESC followed by any character but `[` is an ignored two-character key, so a run on that input goes exactly as a run on the rest; in particular ESC `q` never quits |
| Navigation.RunNeverCrashes | Source/file_xplorer.py:128-176 | with unchanging directory contents, a run that starts with the cursor in range never raises `IndexError` |
| Navigation.RunKeepsCursorInRange | Source/file_xplorer.py:128-176 | under the same condition, the run ends with the cursor on an entry of the final directory's listing, or at 0 over an empty one |
| Navigation.LeftArrow | Source/file_xplorer.py:161-165 | Left arrow at a root leaves directory and cursor unchanged; elsewhere it moves to the parent with the cursor reset to 0 |
| Navigation.RightArrow | Source/file_xplorer.py:155-160 | Right arrow on an empty listing or a non-`[D]` entry changes nothing; on a `[D]` entry it enters that directory with the cursor at 0 |
| Navigation.EnterOnDirectory | Source/file_xplorer.py:168-176 | Enter on an in-range `[D]` entry has the same effect as Right arrow |
| Navigation.EnterOnFile | Source/file_xplorer.py:155-178 | Enter on an in-range entry without the `[D]` tag hands its stripped name under the current directory to the dispatcher, while Right arrow on it changes nothing |
| Navigation.CursorMoves | Source/file_xplorer.py:151-154 | Up and Down change only the cursor, by at most one, never below 0 or past the last entry, and change nothing on an empty listing |
| Navigation.StepAppliesKey | Source/file_xplorer.py:143-176 | reading the characters of an arrow key, `q` or carriage return applies exactly that key's transition to the state and uses exactly those characters, whatever input follows |
| Navigation.StepIgnored | Source/file_xplorer.py:146-168 | any input read as an ignored key, such as ESC `[` followed by a letter other than A to D, leaves directory and cursor unchanged and uses the characters the reads consumed |
| Navigation.OtherKeys | Source/file_xplorer.py:143-168 | a first character other than ESC, `q` and carriage return is one ignored key that leaves the state as it is |
| Navigation.DescendThenAscend | Source/file_xplorer.py:155-165 | entering a directory entry and then pressing Left arrow returns to the starting directory with the cursor at 0 |
| Navigation.EnterOnErrorEntry | Source/file_xplorer.py:43-44 | the permission-denied listing has count 0, yet Enter on its single entry activates the file name `"or] Permission denied"` |
| FileSystem.BackupOf | Source/file_xplorer.py:92 | the backup lies in the same directory as the file, and its name is the file's name with `.bak` appended, so it differs from the file's path |
| Editing.SaveEdit | Source/file_xplorer.py:89-103 | after the answer, the temporary file is gone; on "y" the file holds the edited text and the backup the old content, replacing any earlier backup; on any other answer the file is untouched; no other path changes |
| Editing.EditFile | Source/file_xplorer.py:70-106 | a file that is missing or cannot be read as UTF-8, or an answer other than "y", leaves the whole filesystem exactly as before; "y" gives exactly the old filesystem with the backup set to the old content and the file set to the edited text |
| Editing.SecondSaveOverwritesBackup | Source/file_xplorer.py:92-98 | saving twice leaves the backup holding the content written by the first save, not the original |
| Dispatch.Classify | Source/file_xplorer.py:178-209 | each class is decided by its own test alone: the menu exactly for `.py` names, the shell exactly for `.sh` names, the install exactly for `requirements.txt`, and no action exactly when none of these holds; so the order of the tests never matters |
| Dispatch.ExtensionsExclusive | Source/file_xplorer.py:178-206 | no name ends in both `.py` and `.sh`, and `requirements.txt` ends in neither |
| Dispatch.ChooseOption | Source/file_xplorer.py:187-200 | the menu stays prompting exactly while every answer is invalid; otherwise it takes the first of "1", "2", "3" and reads no answer past it |
| Dispatch.RejectedAnswersIgnored | Source/file_xplorer.py:187-200 | invalid answers before the rest change only how many answers are read, not the option chosen |
| Dispatch.DispatchFile | Source/file_xplorer.py:110-209 | a `.py` file runs the menu: while no answer is valid it keeps prompting, otherwise it reads exactly the answers up to the first valid one and runs, edits or goes back at the selected path as that answer says; a `.sh` file runs the shell on its path; `requirements.txt` starts the installer when it exists and reports it missing otherwise; any other name reports no action; only `.py` files read answers |
| Dispatch.DispatchSkipsRejectedAnswers | Source/file_xplorer.py:187-200 | for a `.py` file, invalid answers given first change only how many answers are read, never the effect |
| Dispatch.DispatchStartsOnlyMatchingProcess | Source/file_xplorer.py:110-206 | the interpreter and the editor are started only for `.py` files, the shell only for `.sh` files, and the installer only for `requirements.txt` and exactly when it exists, always at the selected path |
| Scenarios.TreeListing | Source/file_xplorer.py:28-42 | a directory enumerated as `run.py`, `sub` is listed as `[D] sub`, `[F] run.py` |
| Scenarios.EnterOnScript | Source/file_xplorer.py:168-178 | Enter on `[F] run.py` activates `run.py` under the current directory |
| Scenarios.DownEnterRunsScript | Source/file_xplorer.py:128-191 | Down then Enter in that directory activates `run.py` at its full path, and answering "1" runs it |
| Scenarios.MissingManifest | Source/file_xplorer.py:110-115 | selecting a missing `requirements.txt` reports it and invokes nothing |
| Scenarios.LeftAtRoot | Source/file_xplorer.py:161-165 | Left arrow at the root leaves directory and cursor unchanged |

## Left out

- Raw terminal input (`getch`, `msvcrt`, `termios`/`tty`, lines 10-23) is terminal I/O. The keys are a given character sequence, as the POSIX branch delivers them.
- Windows key input is not modelled. There `msvcrt.getch().decode('utf-8')` (line 13) raises an uncaught `UnicodeDecodeError` on the `\xe0` byte that starts an arrow key.
- The unconditional `import msvcrt` on line 6 fails on systems other than Windows, so the program does not start there as written. The model describes the loop as if that import succeeded.
- `clear_screen`, every `print`, and the "Press Enter/any key to continue" pauses are display I/O with no effect on the state.
- Prompt answers (`input`) form their own sequence, separate from the raw keys. How the two interleave on one terminal is not modelled.
- `run_python_file`, `run_shell_script` and the pip `subprocess` call are external processes. They appear only as `Effect` values, and their exit status is not modelled.
- Temporary file creation and the editor launch (lines 76-87) are foreign calls. The temporary path and the text the editor leaves are parameters.
- The exception path of `edit_file` after the file has been read (lines 105-106) is left out. Only a failed open or UTF-8 read, which happens before anything is written, is modelled, as the `readable` input of `Editing.EditFile`.
- `KeyboardInterrupt` handling (lines 211-216) is signal handling.
- `os.listdir`/`os.path.isdir` and filesystem races: the enumeration outcome is an input, independent of the content map used by the edit and install steps.
- Path syntax: absolute child names, drive roots, symbolic links and `pathlib` normalisation are not modelled. Paths are sequences of components.
- `shutil.copy2` copies metadata too; only content is modelled.
- `Strings.Lower` handles ASCII letters only. For the one test it serves (`== 'y'`) it agrees with Python, since only `Y` lower-cases to `y`.
- `FileSystem.Rename` requires the target to be absent, which is the Windows behaviour of `os.rename`. The backup removal on lines 93-94 is what makes the rename legal.
