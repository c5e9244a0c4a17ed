/** Files as a map from path to content, with the primitive operations the
    edit workflow performs. */
module FileSystem {
  import opened Paths

  type FileSystem = map<Path, string>

  /** `os.remove` / `os.unlink` */
  function Delete(fs: FileSystem, p: Path): (r: FileSystem)
    requires p in fs
    ensures r.Keys == fs.Keys - {p}
    ensures forall q :: q in r ==> r[q] == fs[q]
  {
    fs - {p}
  }

  /** `os.rename`, with the portable precondition that the target does not
      exist yet (on Windows an existing target makes it fail). */
  function Rename(fs: FileSystem, src: Path, dst: Path): (r: FileSystem)
    requires src in fs && dst !in fs
    ensures r.Keys == fs.Keys - {src} + {dst}
    ensures r[dst] == fs[src]
    ensures forall q :: q in r && q != dst ==> r[q] == fs[q]
  {
    (fs - {src})[dst := fs[src]]
  }

  /** `shutil.copy2` of the content, replacing whatever `dst` held. */
  function Copy(fs: FileSystem, src: Path, dst: Path): (r: FileSystem)
    requires src in fs
    ensures r.Keys == fs.Keys + {dst}
    ensures r[dst] == fs[src]
    ensures forall q :: q in r && q != dst ==> r[q] == fs[q]
  {
    fs[dst := fs[src]]
  }

  /** `f"{file_path}.bak"`: the same directory, the name with `.bak` appended. */
  function BackupOf(p: Path): (b: Path)
    requires p != []
    ensures b != p && b != [] && Parent(b) == Parent(p)
    ensures b[|b| - 1] == p[|p| - 1] + ".bak"
  {
    var name := p[|p| - 1];
    assert |name + ".bak"| != |name|;
    Parent(p) + [name + ".bak"]
  }
}
