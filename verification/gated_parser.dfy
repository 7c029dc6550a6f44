/** src/parse/parser.rs: the entry point of the gated resolver. A builder
    collects sources and flags; the parser owns a file cache that every
    `parse` call continues to count into. */
module GatedParser {
  import opened Errors
  import opened Providers
  import opened Lines
  import opened Nodes
  import opened Resolution
  import opened GatedEngine
  import SourceContainer

  /** `Parser::parse` on a parser whose cache is `cache`: resolve the root
      with no directory hint on an empty file stack; a discarded root
      becomes NotFound. The second component is the parser's cache after. */
  function ParseRoot(env: Env, cache: Counts, main: Path): (out: (Result<Tree>, Counts))
    requires Closed(env.provider)
    ensures out.0.Ok? ==> WellFormed(out.0.value)
    ensures cache.Keys <= out.1.Keys && forall p :: p in cache ==> cache[p] <= out.1[p]
    ensures var (r, st) := BuildTreeSpec(env, State(cache, []), main, None);
            && out.1 == st.cache
            && (r.Ok? && r.value.Some? <==> out.0.Ok?)
            && (r.Ok? && r.value.Some? ==> out.0.value == r.value.value)
            && (r == Ok(None) ==> out.0 == Err(Fail(NotFound)))
            && (r.Err? ==> out.0 == Err(r.error))
  {
    var (r, st) := BuildTreeSpec(env, State(cache, []), main, None);
    match r
    case Ok(Some(root)) => (Ok(root), st.cache)
    case Ok(None) => (Err(Fail(NotFound)), st.cache)
    case Err(e) => (Err(e), st.cache)
  }

  /** `Parser`: source, flags and the file cache kept between calls. */
  class Parser {
    const env: Env
    var fileCache: Counts

    /** `Parser::new`: an empty file cache. */
    constructor (env: Env)
      requires Closed(env.provider)
      ensures this.env == env && fileCache == map[]
    {
      this.env := env;
      fileCache := map[];
    }

    /** `parse`: a context over the parser's own cache, so counts carry over
        to the next call. */
    method Parse(main: Path) returns (r: Result<Tree>)
      requires Closed(env.provider)
      modifies this
      ensures (r, fileCache) == ParseRoot(env, old(fileCache), main)
    {
      var context := new Context(env, fileCache);
      var root := context.BuildTree(main, None);
      fileCache := context.cache;
      match root {
        case Ok(Some(node)) => r := Ok(node);
        case Ok(None) => r := Err(Fail(NotFound));
        case Err(e) => r := Err(e);
      }
    }
  }

  /** `ParserBuilder`: sources in registration order and the flags. */
  class ParserBuilder {
    var sources: seq<Provider>
    var flags: Flags

    constructor ()
      ensures sources == [] && flags == map[]
    {
      sources := [];
      flags := map[];
    }

    method AddSource(source: Provider)
      modifies this
      ensures sources == old(sources) + [source] && flags == old(flags)
    {
      sources := sources + [source];
    }

    /** `add_flag`: a later value for the same name replaces the earlier one. */
    method AddFlag(name: string, value: bool)
      modifies this
      ensures flags == old(flags)[name := value] && sources == old(sources)
    {
      flags := flags[name := value];
    }

    /** `build`: one parser over the whole list, consulted in registration
        order, with the flags collected so far. */
    method Build(classify: string -> Directive) returns (p: Parser)
      requires forall k :: 0 <= k < |sources| ==> Closed(sources[k])
      ensures fresh(p) && p.fileCache == map[] && p.env.classify == classify && p.env.flags == flags
      ensures Closed(p.env.provider)
      ensures forall path, dir :: p.env.provider.read(path, dir) == SourceContainer.ChainRead(sources, path, dir)
    {
      p := new Parser(Env(SourceContainer.Chain(sources), classify, flags));
    }
  }

  /** Registering a flag twice keeps the last value, and other flags are
      untouched. */
  lemma AddFlagOverwrites(flags: Flags, name: string, v1: bool, v2: bool, other: string)
    requires other != name
    ensures flags[name := v1][name := v2][name] == v2
    ensures other in flags ==> other in flags[name := v1][name := v2] && flags[name := v1][name := v2][other] == flags[other]
  {
  }

  lemma FirstParseOfOnceRoot(env: Env, main: Path, once: string)
    requires Closed(env.provider)
    requires env.provider.read(main, None) == Ok(Loaded(main, [once]))
    requires env.classify(once) == PragmaOnce
    ensures ParseRoot(env, map[], main) == (Ok(Empty(main).WithLine("")), map[main := 1])
  {
    var st0 := State(map[], []);
    BuildTreeCases(env, st0, main, None);
    var p1 := State(map[main := 1], [main]);
    assert Bumped(st0.cache, main) == p1.cache;
    WithLineWellFormed(Empty(main), "");
    assert ParseLineSpec(env, p1, main, once, 0, []) == (Text(""), p1, []);
    assert ParseSpec(env, p1, main, [once], 1, Empty(main).WithLine(""), []) == (Ok(Some(Empty(main).WithLine(""))), p1);
    assert ParseSpec(env, p1, main, [once], 0, Empty(main), []) == (Ok(Some(Empty(main).WithLine(""))), p1);
  }

  lemma SecondParseOfOnceRoot(env: Env, main: Path, once: string)
    requires Closed(env.provider)
    requires env.provider.read(main, None) == Ok(Loaded(main, [once]))
    requires env.classify(once) == PragmaOnce
    ensures ParseRoot(env, map[main := 1], main) == (Err(Fail(NotFound)), map[main := 2])
  {
    var st1 := State(map[main := 1], []);
    BuildTreeCases(env, st1, main, None);
    var p2 := State(map[main := 2], [main]);
    assert Bumped(st1.cache, main) == p2.cache;
    assert ParseLineSpec(env, p2, main, once, 0, []) == (Break, p2, []);
    assert ParseSpec(env, p2, main, [once], 0, Empty(main), []) == (Ok(None), p2);
  }

  /** The file cache is the parser's: a root made of `#pragma once` alone is
      returned by the first `parse` as one empty line, and the second `parse`
      of the same root on the same parser reports NotFound, because the root
      has now been read twice. */
  method ParseTwice(env: Env, main: Path, once: string) returns (first: Result<Tree>, second: Result<Tree>)
    requires Closed(env.provider)
    requires env.provider.read(main, None) == Ok(Loaded(main, [once]))
    requires env.classify(once) == PragmaOnce
    ensures first == Ok(Empty(main).WithLine("")) && second == Err(Fail(NotFound))
  {
    var parser := new Parser(env);
    FirstParseOfOnceRoot(env, main, once);
    SecondParseOfOnceRoot(env, main, once);
    first := parser.Parse(main);
    second := parser.Parse(main);
  }
}
