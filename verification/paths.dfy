/** Paths as sequences of components. `Path::join` is concatenation,
    `Path::parent` drops the last component and `Path::strip_prefix` removes
    a leading sub-sequence. */
module Paths {
  import opened Errors

  function Join(dir: Path, path: Path): (r: Path)
    ensures |r| == |dir| + |path| && r[..|dir|] == dir && r[|dir|..] == path
  {
    dir + path
  }

  /** `path.parent()`; the empty path, for which the source would panic on
      `unwrap`, is its own parent here. */
  function Parent(path: Path): (r: Path)
    ensures path != [] ==> |r| == |path| - 1 && path == r + [path[|path| - 1]]
    ensures path == [] ==> r == []
  {
    if path == [] then [] else path[..|path| - 1]
  }

  /** `path.strip_prefix(prefix).ok()`. */
  function StripPrefix(path: Path, prefix: Path): (r: Option<Path>)
    ensures r.Some? <==> prefix <= path
    ensures r.Some? ==> Join(prefix, r.value) == path
  {
    if prefix <= path then Some(path[|prefix|..]) else None
  }
}
