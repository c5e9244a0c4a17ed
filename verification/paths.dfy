/** Directory paths as sequences of components. */
module Paths {

  /** A path is the list of its components; the empty path is the root. */
  type Path = seq<string>

  /** `os.path.join(dir, name)` for a plain child name: the path whose parent
      is `dir` and whose last component is `name`. */
  function Join(dir: Path, name: string): (p: Path)
    ensures p != [] && Parent(p) == dir && p[|p| - 1] == name
    ensures !IsRoot(p)
  {
    dir + [name]
  }

  /** `Path(p).parent`: only the root is its own parent, and every other path
      is its parent joined with its last component. */
  function Parent(p: Path): (q: Path)
    ensures q == p <==> p == []
    ensures p != [] ==> q + [p[|p| - 1]] == p
  {
    if p == [] then p else p[..|p| - 1]
  }

  /** A root is a path that is its own parent. */
  predicate IsRoot(p: Path) {
    Parent(p) == p
  }
}
