/** src/source/mem.rs: an in-memory source. Files are stored by name; a file
    can be added once; `read` looks the name up under the including file's
    directory first and then as given. The same lookup is used by the
    in-memory hook of src/hook/mem.rs. */
module MemSources {
  import opened Errors
  import opened Paths
  import opened Providers

  /** Stored file contents by name, each already split into lines. */
  type Files = map<Path, seq<string>>

  /** The lookup of `read`: `dir.join(path)` when a directory is given and
      that name is stored, otherwise `path` itself, otherwise NotFound. */
  function Lookup(files: Files, path: Path, dir: Option<Path>): (r: Result<Loaded>)
    ensures r.Ok? <==> (dir.Some? && Join(dir.value, path) in files) || path in files
    ensures dir.Some? && Join(dir.value, path) in files ==>
              r == Ok(Loaded(Join(dir.value, path), files[Join(dir.value, path)]))
    ensures !(dir.Some? && Join(dir.value, path) in files) && path in files ==>
              r == Ok(Loaded(path, files[path]))
    ensures r.Err? ==> r.error == Fail(NotFound)
    ensures r.Ok? ==> r.value.canon in files && r.value.lines == files[r.value.canon]
  {
    var joined := if dir.Some? then ReadFile(files, Join(dir.value, path)) else None;
    match joined
    case Some(lines) => Ok(Loaded(Join(dir.value, path), lines))
    case None =>
      match ReadFile(files, path)
      case Some(lines) => Ok(Loaded(path, lines))
      case None => Err(Fail(NotFound))
  }

  /** `read_file`: the stored text, if any. */
  function ReadFile(files: Files, path: Path): (r: Option<seq<string>>)
    ensures r.Some? <==> path in files
    ensures r.Some? ==> r.value == files[path]
  {
    if path in files then Some(files[path]) else None
  }

  /** The map seen as a provider: every name it returns is a stored name. */
  function FilesProvider(files: Files): (p: Provider)
    ensures forall path, dir :: p.read(path, dir) == Lookup(files, path, dir)
    ensures p.universe == files.Keys
    ensures Closed(p)
  {
    Provider((path, dir) => Lookup(files, path, dir), files.Keys)
  }

  /** Adding a file that is not yet there: one more name, nothing else changes. */
  function Added(files: Files, name: Path, data: seq<string>): (r: Result<Files>)
    ensures name in files ==> r == Err(Fail(AlreadyExists))
    ensures name !in files ==> r.Ok? && r.value.Keys == files.Keys + {name}
    ensures r.Ok? ==> r.value[name] == data && forall p :: p in files ==> p in r.value && r.value[p] == files[p]
  {
    if name in files then Err(Fail(AlreadyExists)) else Ok(files[name := data])
  }

  /** Once stored, a file is read back with the same lines, whatever is added later. */
  lemma {:induction false} AddedKeepsReads(files: Files, name: Path, data: seq<string>, other: Path, odata: seq<string>)
    requires Added(files, name, data).Ok?
    ensures var f := Added(files, name, data).value;
            Added(f, other, odata).Ok? ==> ReadFile(Added(f, other, odata).value, name) == Some(data)
  {
    var f := Added(files, name, data).value;
    if Added(f, other, odata).Ok? {
      assert name in f;
    }
  }

  /** `Mem`. */
  class Mem {
    var files: Files

    constructor()
      ensures files == map[]
    {
      files := map[];
    }

    /** `add_file`: AlreadyExists, with nothing changed, when the name is taken. */
    method AddFile(name: Path, data: seq<string>) returns (r: Result<()>)
      modifies this
      ensures name in old(files) ==> r == Err(Fail(AlreadyExists)) && files == old(files)
      ensures name !in old(files) ==> r == Ok(()) && files == old(files)[name := data]
      ensures Added(old(files), name, data).Ok? <==> r.Ok?
    {
      if name in files {
        r := Err(Fail(AlreadyExists));
      } else {
        files := files[name := data];
        r := Ok(());
      }
    }

    /** `Source for Mem::read`, which changes nothing. */
    function Read(path: Path, dir: Option<Path>): (r: Result<Loaded>)
      reads this
      ensures r.Ok? ==> r.value.canon in files && r.value.lines == files[r.value.canon]
      ensures r.Err? ==> r.error == Fail(NotFound)
    {
      Lookup(files, path, dir)
    }

    /** The source as a provider for the resolvers. */
    function AsProvider(): (p: Provider)
      reads this
      ensures forall path, dir :: p.read(path, dir) == Read(path, dir)
      ensures Closed(p)
    {
      FilesProvider(files)
    }
  }

  /** `MemBuilder`: `add_file` consumes the builder and hands it back on
      success; on failure the builder is gone, so a failed call ends its use. */
  class MemBuilder {
    const source: Mem

    constructor()
      ensures fresh(source) && source.files == map[]
    {
      source := new Mem();
    }

    method AddFile(name: Path, data: seq<string>) returns (r: Result<()>)
      modifies source
      ensures name in old(source.files) ==> r == Err(Fail(AlreadyExists)) && source.files == old(source.files)
      ensures name !in old(source.files) ==> r == Ok(()) && source.files == old(source.files)[name := data]
    {
      r := source.AddFile(name, data);
    }

    method Build() returns (m: Mem)
      ensures m == source
    {
      m := source;
    }
  }
}
