/** The entry points around the gate-free resolver: `Parser` and
    `ParserBuilder` of src/parser.rs, whose occurrence cache outlives each
    `parse` call, and the top-level `build` of src/builder.rs, which starts
    from a fresh cache every time. */
module PlainParser {
  import opened Errors
  import opened Providers
  import opened Lines
  import opened Nodes
  import opened Resolution
  import opened PlainEngine
  import SourceContainer

  /** No count goes down and no path is forgotten. */
  ghost predicate CountsGrow(before: Counts, after: Counts) {
    && before.Keys <= after.Keys
    && forall p :: p in before ==> before[p] <= after[p]
  }

  /** `Parser::parse` on a parser whose cache is `cache`: resolve the root
      with no directory hint on an empty file stack; a discarded root
      becomes NotFound. The second component is the parser's cache after. */
  function ParseRoot(env: Env, cache: Counts, main: Path): (out: (Result<Tree>, Counts))
    requires Closed(env.provider)
    ensures out.0.Ok? ==> WellFormed(out.0.value)
    ensures CountsGrow(cache, out.1)
    ensures out.1 == BuildTreeSpec(env, State(cache, []), main, None).1.cache
    ensures BuildTreeSpec(env, State(cache, []), main, None).0.Ok? &&
            BuildTreeSpec(env, State(cache, []), main, None).0.value.Some? ==>
              out.0 == Ok(BuildTreeSpec(env, State(cache, []), main, None).0.value.value)
    ensures BuildTreeSpec(env, State(cache, []), main, None).0 == Ok(None) ==> out.0 == Err(Fail(NotFound))
    ensures BuildTreeSpec(env, State(cache, []), main, None).0.Err? ==>
              out.0 == Err(BuildTreeSpec(env, State(cache, []), main, None).0.error)
  {
    var (r, st) := BuildTreeSpec(env, State(cache, []), main, None);
    match r
    case Ok(Some(root)) => (Ok(root), st.cache)
    case Ok(None) => (Err(Fail(NotFound)), st.cache)
    case Err(e) => (Err(e), st.cache)
  }

  /** `Parser`: the source and the occurrence cache it keeps between calls. */
  class Parser {
    const env: Env
    var cache: Counts

    /** `Parser::new`: an empty occurrence cache. */
    constructor (env: Env)
      requires Closed(env.provider)
      ensures this.env == env && cache == map[]
    {
      this.env := env;
      cache := map[];
    }

    /** `parse`: the cache the resolver leaves behind is the parser's cache
        for the next call. */
    method Parse(main: Path) returns (r: Result<Tree>)
      requires Closed(env.provider)
      modifies this
      ensures (r, cache) == ParseRoot(env, old(cache), main)
    {
      var context := new Context(env, cache);
      var root := context.BuildTree(main, None);
      cache := context.cache;
      match root {
        case Ok(Some(node)) => r := Ok(node);
        case Ok(None) => r := Err(Fail(NotFound));
        case Err(e) => r := Err(e);
      }
    }
  }

  /** `ParserBuilder`: sources in registration order. */
  class ParserBuilder {
    var sources: seq<Provider>

    constructor ()
      ensures sources == []
    {
      sources := [];
    }

    method AddSource(source: Provider)
      modifies this
      ensures sources == old(sources) + [source]
    {
      sources := sources + [source];
    }

    /** `build`: one parser over the whole list, consulted in registration
        order. */
    method Build(classify: string -> Directive) returns (p: Parser)
      requires forall k :: 0 <= k < |sources| ==> Closed(sources[k])
      ensures fresh(p) && p.cache == map[] && p.env.classify == classify
      ensures Closed(p.env.provider)
      ensures forall path, dir :: p.env.provider.read(path, dir) == SourceContainer.ChainRead(sources, path, dir)
    {
      p := new Parser(Env(SourceContainer.Chain(sources), classify));
    }
  }

  /** The outcome of the top-level `build` of src/builder.rs, where
      `unwrap` on a discarded root is a panic. */
  datatype Built = Built(root: Tree) | BuildError(error: Error) | Panicked

  /** `build(hook, main)`: a fresh resolver, the current directory (if it
      could be determined) as the directory hint of the root. */
  function BuildOutcome(env: Env, main: Path, cwd: Option<Path>): (b: Built)
    requires Closed(env.provider)
    ensures b.Built? ==> WellFormed(b.root)
  {
    match BuildTreeSpec(env, State(map[], []), main, cwd).0
    case Ok(Some(root)) => Built(root)
    case Ok(None) => Panicked
    case Err(e) => BuildError(e)
  }

  method Build(env: Env, main: Path, cwd: Option<Path>) returns (b: Built)
    requires Closed(env.provider)
    ensures b == BuildOutcome(env, main, cwd)
  {
    var builder := new Context(env, map[]);
    var root := builder.BuildTree(main, cwd);
    match root {
      case Ok(Some(node)) => b := Built(node);
      case Ok(None) => b := Panicked;
      case Err(e) => b := BuildError(e);
    }
  }

  /** With no current directory, the top-level `build` is the first `parse`
      of a new parser, except that a discarded root panics instead of
      reporting NotFound. */
  lemma BuildIsFirstParse(env: Env, main: Path)
    requires Closed(env.provider)
    ensures var b, r := BuildOutcome(env, main, None), ParseRoot(env, map[], main).0;
            && (b.Built? <==> r.Ok?)
            && (b.Built? ==> r.value == b.root)
            && (b.BuildError? ==> r == Err(b.error))
            && (b.Panicked? ==> r == Err(Fail(NotFound)))
  {
  }
}
