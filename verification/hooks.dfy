/** src/hook/list.rs and src/hook/mem.rs: the `Hook` generation of the
    providers. A list hook tries its hooks in registration order with the
    same NotFound fall-through as a vector of sources; the memory hook is the
    same map-backed lookup as the memory source. */
module Hooks {
  import opened Errors
  import opened Providers
  import SourceContainer
  import MemSources

  /** `ListHook`. */
  class ListHook {
    var hooks: seq<Provider>

    constructor()
      ensures hooks == []
    {
      hooks := [];
    }

    /** `add_hook`: appended after the hooks already registered. */
    method AddHook(hook: Provider)
      modifies this
      ensures hooks == old(hooks) + [hook]
    {
      hooks := hooks + [hook];
    }

    /** `Hook for ListHook::read`: the first Ok or the first error other
        than NotFound, in registration order; NotFound when there is none. */
    method Read(path: Path, dir: Option<Path>) returns (r: Result<Loaded>)
      ensures r == SourceContainer.ChainRead(hooks, path, dir)
    {
      r := SourceContainer.ReadVec(hooks, path, dir);
    }

    function AsProvider(): (p: Provider)
      reads this
      ensures forall path, dir :: p.read(path, dir) == SourceContainer.ChainRead(hooks, path, dir)
      ensures (forall k :: 0 <= k < |hooks| ==> Closed(hooks[k])) ==> Closed(p)
    {
      SourceContainer.Chain(hooks)
    }
  }

  /** `ListHookBuilder`: every `add_hook` goes through to the list. */
  class ListHookBuilder {
    const hook: ListHook

    constructor()
      ensures fresh(hook) && hook.hooks == []
    {
      hook := new ListHook();
    }

    method AddHook(h: Provider)
      modifies hook
      ensures hook.hooks == old(hook.hooks) + [h]
    {
      hook.AddHook(h);
    }

    method Build() returns (l: ListHook)
      ensures l == hook
    {
      l := hook;
    }
  }

  /** `MemHook`. */
  class MemHook {
    var files: MemSources.Files

    constructor()
      ensures files == map[]
    {
      files := map[];
    }

    /** `add_file`: AlreadyExists, with nothing changed, when the name is taken. */
    method AddFile(name: Path, data: seq<string>) returns (r: Result<()>)
      modifies this
      ensures name in old(files) ==> r == Err(Fail(AlreadyExists)) && files == old(files)
      ensures name !in old(files) ==> r == Ok(()) && files == old(files)[name := data]
    {
      if name in files {
        r := Err(Fail(AlreadyExists));
      } else {
        files := files[name := data];
        r := Ok(());
      }
    }

    /** `Hook for MemHook::read`: the joined name first, then the name as
        given, else NotFound; nothing changes. */
    function Read(path: Path, dir: Option<Path>): (r: Result<Loaded>)
      reads this
      ensures r.Ok? ==> r.value.canon in files && r.value.lines == files[r.value.canon]
      ensures r.Err? ==> r.error == Fail(NotFound)
    {
      MemSources.Lookup(files, path, dir)
    }

    function AsProvider(): (p: Provider)
      reads this
      ensures forall path, dir :: p.read(path, dir) == Read(path, dir)
      ensures Closed(p)
    {
      MemSources.FilesProvider(files)
    }
  }

  /** `MemHookBuilder`. */
  class MemHookBuilder {
    const hook: MemHook

    constructor()
      ensures fresh(hook) && hook.files == map[]
    {
      hook := new MemHook();
    }

    method AddFile(name: Path, data: seq<string>) returns (r: Result<()>)
      modifies hook
      ensures name in old(hook.files) ==> r == Err(Fail(AlreadyExists)) && hook.files == old(hook.files)
      ensures name !in old(hook.files) ==> r == Ok(()) && hook.files == old(hook.files)[name := data]
    {
      r := hook.AddFile(name, data);
    }

    method Build() returns (m: MemHook)
      ensures m == hook
    {
      m := hook;
    }
  }

  /** Registration order is lookup order: with a hook that has the name
      registered after one that does not, the second one answers; with the
      order swapped, the first one answers. */
  lemma {:induction false} ListOrderMatters(a: Provider, b: Provider, path: Path, dir: Option<Path>)
    requires a.read(path, dir) == Err(Fail(NotFound))
    requires b.read(path, dir).Ok?
    ensures SourceContainer.ChainRead([a, b], path, dir) == b.read(path, dir)
    ensures SourceContainer.ChainRead([b, a], path, dir) == b.read(path, dir)
  {
    assert [a, b][1..] == [b];
    assert [b] [1..] == [];
  }
}
