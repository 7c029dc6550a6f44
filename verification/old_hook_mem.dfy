/** src/old-hook/mem.rs: the legacy in-memory hook. Names are stored under a
    prefix; a lookup strips the prefix and never fails, a miss is `None`. */
module OldHooks {
  import opened Errors
  import opened Paths
  import opened Providers

  class MemHook {
    const prefix: Path
    var files: map<Path, seq<string>>

    constructor(prefix: Path)
      ensures this.prefix == prefix && files == map[]
    {
      this.prefix := prefix;
      files := map[];
    }

    /** `add_file`: inserts, replacing an earlier file of the same name. */
    method AddFile(name: Path, data: seq<string>)
      modifies this
      ensures files == old(files)[name := data]
    {
      files := files[name := data];
    }

    /** `get`: the directory argument is ignored and the answer is always Ok. */
    function Get(dir: Option<Path>, path: Path): (r: Result<Option<Loaded>>)
      reads this
      ensures r.Ok?
      ensures r.value.Some? <==> prefix <= path && path[|prefix|..] in files
      ensures r.value.Some? ==> Join(prefix, r.value.value.canon) == path
                                && r.value.value.lines == files[r.value.value.canon]
    {
      var name := StripPrefix(path, prefix);
      Ok(if name.Some? && name.value in files then Some(Loaded(name.value, files[name.value])) else None)
    }
  }

  /** The answer does not depend on the directory. */
  lemma GetIgnoresDir(h: MemHook, d1: Option<Path>, d2: Option<Path>, path: Path)
    ensures h.Get(d1, path) == h.Get(d2, path)
  {
  }
}
