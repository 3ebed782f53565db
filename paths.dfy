/** `pathlib.Path` as far as the analyser uses it: a path is absolute or
    relative and a sequence of components; its parent drops the last
    component, and the parent of `/` (or of `.`) is itself. */
module Paths {
  import opened PyStr

  datatype Path = Path(absolute: bool, parts: seq<string>)

  /** `path.parent`. */
  function Parent(p: Path): (q: Path)
    ensures q.absolute == p.absolute
    ensures |p.parts| == 0 ==> q == p
    ensures |p.parts| > 0 ==> |q.parts| == |p.parts| - 1 && q.parts == p.parts[..|p.parts| - 1]
  {
    if |p.parts| == 0 then p else Path(p.absolute, p.parts[..|p.parts| - 1])
  }

  /** The ancestor of `p` (or `p` itself) made of its first `depth` components. */
  function Ancestor(p: Path, depth: nat): Path
    requires depth <= |p.parts|
  {
    Path(p.absolute, p.parts[..depth])
  }

  /** `str(path)`: "/" for the root, "." for the empty relative path. */
  function Text(p: Path): string
  {
    if p.absolute then "/" + Join(p.parts, "/")
    else if p.parts == [] then "."
    else Join(p.parts, "/")
  }

  /** Every component is a real directory or file name. */
  predicate WellFormed(p: Path) {
    forall k :: 0 <= k < |p.parts| ==> NonEmptyWithout(p.parts[k], '/')
  }
}
