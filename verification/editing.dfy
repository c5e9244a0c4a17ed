/** The save/backup part of `edit_file`: after the external editor has
    changed the temporary copy, the user's answer decides whether the copy
    replaces the original, which is kept as a `.bak` file. */
module Editing {
  import opened Paths
  import opened Strings
  import opened FileSystem

  /** `answer.lower() == 'y'` */
  predicate IsYes(answer: string) {
    Lower(answer) == "y"
  }

  /** The save step of `edit_file` (Source/file_xplorer.py, lines 89-103):
      on "y", remove an old backup, rename the original to the
      backup, copy the temporary file over the original; in every case delete
      the temporary file. */
  function SaveEdit(fs: FileSystem, path: Path, temp: Path, answer: string): (r: FileSystem)
    requires path != [] && path in fs && temp in fs
    requires temp != path && temp != BackupOf(path)
    ensures temp !in r
    ensures IsYes(answer) ==>
      && path in r && r[path] == fs[temp]
      && BackupOf(path) in r && r[BackupOf(path)] == fs[path]
    ensures !IsYes(answer) ==> path in r && r[path] == fs[path]
    ensures forall q :: q != path && q != BackupOf(path) && q != temp ==>
      (q in r <==> q in fs) && (q in r ==> r[q] == fs[q])
    ensures !IsYes(answer) ==> r == fs - {temp}
  {
    if IsYes(answer) then
      var backup := BackupOf(path);
      var cleared := if backup in fs then Delete(fs, backup) else fs;
      var renamed := Rename(cleared, path, backup);
      var copied := Copy(renamed, temp, path);
      Delete(copied, temp)
    else
      Delete(fs, temp)
  }

  /** `edit_file` (Source/file_xplorer.py, lines 70-103) with the editor as a parameter: read the file, write its
      content to a fresh temporary file, let the editor turn it into `edited`,
      then save or discard. `readable` says whether opening and decoding the
      file as UTF-8 succeeds; when it fails, or the file is missing, the
      exception is raised before anything is written. A file that cannot be
      read, and any answer but "y", leave the filesystem exactly as it was
      (the temporary file was fresh and is gone again); "y" keeps the old
      content as the one backup, overwriting any earlier one, puts the edited
      text in its place, and changes nothing else. */
  function EditFile(fs: FileSystem, path: Path, readable: bool, temp: Path, edited: string, answer: string): (r: FileSystem)
    requires path != [] && temp !in fs && temp != BackupOf(path)
    ensures path !in fs || !readable ==> r == fs
    ensures !IsYes(answer) ==> r == fs
    ensures path in fs && readable && IsYes(answer) ==> r == fs[BackupOf(path) := fs[path]][path := edited]
  {
    if path !in fs || !readable then fs
    else
      var withCopy := fs[temp := fs[path]];
      var afterEditor := withCopy[temp := edited];
      SaveEdit(afterEditor, path, temp, answer)
  }

  /** Saving again replaces the backup with the content just before the
      second save. */
  lemma SecondSaveOverwritesBackup(fs: FileSystem, path: Path, temp: Path, first: string, second: string)
    requires path != [] && path in fs && temp !in fs && temp != BackupOf(path)
    ensures var once := EditFile(fs, path, true, temp, first, "y");
      temp !in once &&
      EditFile(once, path, true, temp, second, "Y")[BackupOf(path)] == first
  {
  }
}
