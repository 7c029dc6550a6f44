/** The content-provider interface shared by the `Source` trait
    (src/source/mod.rs) and the `Hook` trait (src/hook/mod.rs): given a name
    and an optional directory of the including file, return the canonical
    path of the file found and its text, or an error. Text arrives already
    split into lines (what `str::lines` would give). */
module Providers {
  import opened Errors

  datatype Loaded = Loaded(canon: Path, lines: seq<string>)

  type ReadFn = (Path, Option<Path>) -> Result<Loaded>

  /** A deterministic provider, together with a finite set of canonical paths
      that covers every path it can return. */
  datatype Provider = Provider(read: ReadFn, universe: set<Path>)

  ghost predicate Closed(p: Provider) {
    forall path, dir :: p.read(path, dir).Ok? ==> p.read(path, dir).value.canon in p.universe
  }
}
