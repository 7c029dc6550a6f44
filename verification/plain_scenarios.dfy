/** Runs of the gate-free resolver on the fixtures of src/tests.rs, over
    the in-memory hook and a classifier that recognises the fixture lines
    the way the resolver's regular expressions do. */
module PlainScenarios {
  import opened Errors
  import opened Providers
  import opened Lines
  import opened Nodes
  import opened Resolution
  import opened PlainEngine
  import opened PlainParser
  import MemSources
  import Paths

  const First: Path := ["first.h"]
  const Second: Path := ["second.h"]
  const IncFirst := "#include <first.h>"
  const IncSecond := "#include <second.h>"
  const Once := "#pragma once"

  predicate ClassifiesFixtures(classify: string -> Directive) {
    && classify(IncFirst) == Include('<', First, '>')
    && classify(IncSecond) == Include('<', Second, '>')
    && classify(Once) == PragmaOnce
  }

  /** A file whose only line includes `<q>` fails exactly as that include
      does, one frame (the file, line 0) longer. */
  lemma IncludeOnlyFilePropagates(env: Env, st: State, p: Path, dir: Option<Path>, q: Path, line: string, e: Error)
    requires Closed(env.provider) && AtMostTwice(st.stack)
    requires env.provider.read(p, dir) == Ok(Loaded(p, [line]))
    requires env.classify(line) == Include('<', q, '>')
    requires multiset(st.stack)[p] < 2
    requires BuildTreeSpec(env, State(Bumped(st.cache, p), st.stack + [p]), q, None).0 == Err(e)
    ensures BuildTreeSpec(env, st, p, dir).0 == Err(e.At(p, 0))
  {
    PushKeepsAtMostTwice(st.stack, p);
    var pushed := State(Bumped(st.cache, p), st.stack + [p]);
    assert ParseLineSpec(env, pushed, p, line, 0).0 == Failed(e.At(p, 0));
    var out := ParseSpec(env, pushed, p, [line], 0, Empty(p));
    assert out.0 == Err(e.At(p, 0));
    assert BuildTreeSpec(env, st, p, dir) == out;
  }

  /** The hook of tests.rs `recursion`. */
  ghost predicate MutualEnv(env: Env) {
    && env.provider == MemSources.FilesProvider(map[First := [IncSecond], Second := [IncFirst]])
    && ClassifiesFixtures(env.classify)
  }

  lemma MutualFixtureReads(env: Env, cwd: Option<Path>)
    requires MutualEnv(env)
    requires cwd != Some([])
    ensures Closed(env.provider)
    ensures First != Second
    ensures env.provider.read(First, None) == Ok(Loaded(First, [IncSecond]))
    ensures env.provider.read(Second, None) == Ok(Loaded(Second, [IncFirst]))
    ensures env.provider.read(First, cwd) == Ok(Loaded(First, [IncSecond]))
  {
    assert First[0][0] != Second[0][0];
    if cwd.Some? {
      assert |Paths.Join(cwd.value, First)| > 1;
    }
  }

  /** Fourth entry: the first header is already twice on the stack. */
  lemma MutualDepth4(env: Env)
    requires MutualEnv(env)
    ensures Closed(env.provider)
    ensures BuildTreeSpec(env, State(map[First := 2, Second := 2], [First, Second, First, Second]), First, None).0
            == Err(Fail(InvalidData))
  {
    MutualFixtureReads(env, None);
    var stack := [First, Second, First, Second];
    PushKeepsAtMostTwice([], First);
    PushKeepsAtMostTwice([First], Second);
    PushKeepsAtMostTwice([First, Second], First);
    PushKeepsAtMostTwice([First, Second, First], Second);
    RecursionFound(env, State(map[First := 2, Second := 2], stack), First, None);
  }

  lemma MutualDepth3(env: Env)
    requires MutualEnv(env)
    ensures Closed(env.provider)
    ensures BuildTreeSpec(env, State(map[First := 2, Second := 1], [First, Second, First]), Second, None).0
            == Err(Fail(InvalidData).At(Second, 0))
  {
    MutualFixtureReads(env, None);
    MutualDepth4(env);
    PushKeepsAtMostTwice([], First);
    PushKeepsAtMostTwice([First], Second);
    PushKeepsAtMostTwice([First, Second], First);
    var st := State(map[First := 2, Second := 1], [First, Second, First]);
    assert multiset(st.stack)[Second] == 1;
    assert State(Bumped(st.cache, Second), st.stack + [Second])
           == State(map[First := 2, Second := 2], [First, Second, First, Second]);
    IncludeOnlyFilePropagates(env, st, Second, None, First, IncFirst, Fail(InvalidData));
  }

  lemma MutualDepth2(env: Env)
    requires MutualEnv(env)
    ensures Closed(env.provider)
    ensures BuildTreeSpec(env, State(map[First := 1, Second := 1], [First, Second]), First, None).0
            == Err(Fail(InvalidData).At(Second, 0).At(First, 0))
  {
    MutualFixtureReads(env, None);
    MutualDepth3(env);
    PushKeepsAtMostTwice([], First);
    PushKeepsAtMostTwice([First], Second);
    var st := State(map[First := 1, Second := 1], [First, Second]);
    assert multiset(st.stack)[First] == 1;
    assert State(Bumped(st.cache, First), st.stack + [First])
           == State(map[First := 2, Second := 1], [First, Second, First]);
    IncludeOnlyFilePropagates(env, st, First, None, Second, IncSecond, Fail(InvalidData).At(Second, 0));
  }

  lemma MutualDepth1(env: Env)
    requires MutualEnv(env)
    ensures Closed(env.provider)
    ensures BuildTreeSpec(env, State(map[First := 1], [First]), Second, None).0
            == Err(Fail(InvalidData).At(Second, 0).At(First, 0).At(Second, 0))
  {
    MutualFixtureReads(env, None);
    MutualDepth2(env);
    PushKeepsAtMostTwice([], First);
    var st := State(map[First := 1], [First]);
    assert multiset(st.stack)[Second] == 0;
    assert State(Bumped(st.cache, Second), st.stack + [Second])
           == State(map[First := 1, Second := 1], [First, Second]);
    IncludeOnlyFilePropagates(env, st, Second, None, First, IncFirst, Fail(InvalidData).At(Second, 0).At(First, 0));
  }

  /** tests.rs `recursion`: two headers that include each other without
      `#pragma once`. The third entry of the first header finds it twice on
      the stack; the error comes back through every include line, and the
      top-level `build` reports it (the test's `unwrap` then panics). */
  lemma MutualInclusionFails(env: Env, cwd: Option<Path>)
    requires MutualEnv(env)
    requires cwd != Some([])
    ensures Closed(env.provider)
    ensures BuildOutcome(env, First, cwd)
            == BuildError(Error(InvalidData, [Frame(Second, 0), Frame(First, 0), Frame(Second, 0), Frame(First, 0)]))
  {
    MutualFixtureReads(env, cwd);
    MutualDepth1(env);
    var st := State(map[], []);
    assert State(Bumped(st.cache, First), st.stack + [First]) == State(map[First := 1], [First]);
    IncludeOnlyFilePropagates(env, st, First, cwd, Second, IncSecond, Fail(InvalidData).At(Second, 0).At(First, 0).At(Second, 0));
  }

  /** A first entry of a file made of `#pragma once` and one `<q>` include:
      the pragma gives an empty line, the include a child or, when `q` is
      discarded, a second empty line. */
  lemma OnceThenIncludeFile(env: Env, st: State, p: Path, dir: Option<Path>, q: Path, inc: string)
    requires Closed(env.provider) && AtMostTwice(st.stack)
    requires env.provider.read(p, dir) == Ok(Loaded(p, [Once, inc]))
    requires env.classify(Once) == PragmaOnce && env.classify(inc) == Include('<', q, '>')
    requires p !in st.cache && multiset(st.stack)[p] < 2
    requires AtMostTwice(st.stack + [p])
    requires BuildTreeSpec(env, State(Bumped(st.cache, p), st.stack + [p]), q, None).0.Ok?
    ensures var sub := BuildTreeSpec(env, State(Bumped(st.cache, p), st.stack + [p]), q, None).0.value;
            var head := Empty(p).WithLine("");
            BuildTreeSpec(env, st, p, dir).0
            == Ok(Some(if sub.Some? then head.WithChild(sub.value) else head.WithLine("")))
  {
    var pushed := State(Bumped(st.cache, p), st.stack + [p]);
    var r := BuildTreeSpec(env, pushed, q, None).0;
    var head := Empty(p).WithLine("");
    var node := if r.value.Some? then head.WithChild(r.value.value) else head.WithLine("");
    OnceThenIncludeSteps(env, pushed, p, q, inc);
    assert BuildTreeSpec(env, st, p, dir).0 == ParseSpec(env, pushed, p, [Once, inc], 0, Empty(p)).0;
  }

  lemma OnceThenIncludeSteps(env: Env, pushed: State, p: Path, q: Path, inc: string)
    requires Closed(env.provider) && AtMostTwice(pushed.stack)
    requires env.classify(Once) == PragmaOnce && env.classify(inc) == Include('<', q, '>')
    requires p in pushed.cache && pushed.cache[p] == 1
    requires BuildTreeSpec(env, pushed, q, None).0.Ok?
    ensures var sub := BuildTreeSpec(env, pushed, q, None).0.value;
            var head := Empty(p).WithLine("");
            ParseSpec(env, pushed, p, [Once, inc], 0, Empty(p)).0
            == Ok(Some(if sub.Some? then head.WithChild(sub.value) else head.WithLine("")))
  {
    var (r, after) := BuildTreeSpec(env, pushed, q, None);
    var head := Empty(p).WithLine("");
    WithLineWellFormed(Empty(p), "");
    assert ParseLineSpec(env, pushed, p, Once, 0) == (Text(""), pushed);
    assert ParseSpec(env, pushed, p, [Once, inc], 0, Empty(p)) == ParseSpec(env, pushed, p, [Once, inc], 1, head);
    IncludeLineStep(env, pushed, p, q, inc, head);
  }

  lemma IncludeLineStep(env: Env, pushed: State, p: Path, q: Path, inc: string, head: Tree)
    requires Closed(env.provider) && AtMostTwice(pushed.stack)
    requires env.classify(inc) == Include('<', q, '>')
    requires p in pushed.cache && WellFormed(head)
    requires BuildTreeSpec(env, pushed, q, None).0.Ok?
    ensures var sub := BuildTreeSpec(env, pushed, q, None).0.value;
            ParseSpec(env, pushed, p, [Once, inc], 1, head).0
            == Ok(Some(if sub.Some? then head.WithChild(sub.value) else head.WithLine("")))
  {
    var (r, after) := BuildTreeSpec(env, pushed, q, None);
    var o := ParseLineSpec(env, pushed, p, inc, head.LinesCount());
    assert o.0 == if r.value.Some? then Splice(r.value.value) else Text("");
    var node := if r.value.Some? then head.WithChild(r.value.value) else head.WithLine("");
    if r.value.Some? {
      WithChildWellFormed(head, r.value.value);
    } else {
      WithLineWellFormed(head, "");
    }
    assert ParseSpec(env, o.1, p, [Once, inc], 2, node).0 == Ok(Some(node));
  }

  /** The hook of tests.rs `recursion_prevented`. */
  ghost predicate GuardedEnv(env: Env) {
    && env.provider == MemSources.FilesProvider(map[First := [Once, IncSecond], Second := [Once, IncFirst]])
    && ClassifiesFixtures(env.classify)
  }

  lemma GuardedFixtureReads(env: Env, cwd: Option<Path>)
    requires GuardedEnv(env)
    requires cwd != Some([])
    ensures Closed(env.provider)
    ensures First != Second
    ensures env.provider.read(First, None) == Ok(Loaded(First, [Once, IncSecond]))
    ensures env.provider.read(Second, None) == Ok(Loaded(Second, [Once, IncFirst]))
    ensures env.provider.read(First, cwd) == Ok(Loaded(First, [Once, IncSecond]))
  {
    assert First[0][0] != Second[0][0];
    if cwd.Some? {
      assert |Paths.Join(cwd.value, First)| > 1;
    }
  }

  /** Second header, entered from the first: its include of the first header
      is discarded by that header's pragma. */
  lemma GuardedDepth2(env: Env)
    requires GuardedEnv(env)
    ensures Closed(env.provider)
    ensures BuildTreeSpec(env, State(map[First := 1], [First]), Second, None).0
            == Ok(Some(Empty(Second).WithLine("").WithLine("")))
  {
    GuardedFixtureReads(env, None);
    PushKeepsAtMostTwice([], First);
    PushKeepsAtMostTwice([First], Second);
    var inner := State(map[First := 1, Second := 1], [First, Second]);
    assert multiset(inner.stack)[First] == 1;
    PragmaOnceDiscardsRepeat(env, inner, First, None);
    var st := State(map[First := 1], [First]);
    assert multiset(st.stack)[Second] == 0;
    assert State(Bumped(st.cache, Second), st.stack + [Second]) == inner;
    OnceThenIncludeFile(env, st, Second, None, First, IncFirst);
  }

  const GuardedChild := Tree(Second, [], "\n\n", [0, 1])
  const GuardedRoot := Tree(First, [Child(GuardedChild, 2)], "\n\n", [0, 1])

  lemma GuardedTreeValue()
    ensures Empty(First).WithLine("").WithChild(Empty(Second).WithLine("").WithLine("")) == GuardedRoot
  {
    assert TrimEnd("") == "";
    assert Empty(Second).WithLine("").WithLine("") == GuardedChild;
    var head := Empty(First).WithLine("");
    assert head == Tree(First, [], "\n", [0]);
    assert head.WithLine("") == Tree(First, [], "\n\n", [0, 1]);
  }

  /** The two-level tree of that fixture flattens to four newlines. */
  lemma GuardedTreeCollected()
    ensures Spliceable(GuardedRoot) && Collected(GuardedRoot) == "\n\n\n\n"
  {
    assert Spliceable(GuardedChild) && Collected(GuardedChild) == "\n\n";
    assert CollectFrom(GuardedRoot, 1, 2) == "";
  }

  /** tests.rs `recursion_prevented`: two `#pragma once` headers that include
      each other give four empty lines. */
  lemma MutualPragmaOnce(env: Env, cwd: Option<Path>)
    requires GuardedEnv(env)
    requires cwd != Some([])
    ensures Closed(env.provider)
    ensures var b := BuildOutcome(env, First, cwd);
            b.Built? && Spliceable(b.root) && Collected(b.root) == "\n\n\n\n"
  {
    GuardedFixtureReads(env, cwd);
    GuardedDepth2(env);
    var st := State(map[], []);
    assert State(Bumped(st.cache, First), st.stack + [First]) == State(map[First := 1], [First]);
    OnceThenIncludeFile(env, st, First, cwd, Second, IncSecond);
    GuardedTreeValue();
    GuardedTreeCollected();
  }

  /** A file of one `<q>` include followed by `#pragma once`: when the
      include succeeds and leaves the file counted more than once, the pragma
      discards the file. */
  lemma IncludeThenOnceDiscarded(env: Env, st: State, p: Path, dir: Option<Path>, q: Path, inc: string)
    requires Closed(env.provider) && AtMostTwice(st.stack)
    requires env.provider.read(p, dir) == Ok(Loaded(p, [inc, Once]))
    requires env.classify(Once) == PragmaOnce && env.classify(inc) == Include('<', q, '>')
    requires multiset(st.stack)[p] < 2 && AtMostTwice(st.stack + [p])
    requires var sub := BuildTreeSpec(env, State(Bumped(st.cache, p), st.stack + [p]), q, None);
             sub.0.Ok? && p in sub.1.cache && sub.1.cache[p] > 1
    ensures var sub := BuildTreeSpec(env, State(Bumped(st.cache, p), st.stack + [p]), q, None);
            BuildTreeSpec(env, st, p, dir) == (Ok(None), State(sub.1.cache, st.stack))
  {
    var pushed := State(Bumped(st.cache, p), st.stack + [p]);
    BumpedGrows(st, p);
    IncludeThenOnceSteps(env, pushed, p, q, inc);
  }

  lemma IncludeThenOnceSteps(env: Env, pushed: State, p: Path, q: Path, inc: string)
    requires Closed(env.provider) && AtMostTwice(pushed.stack) && p in pushed.cache
    requires env.classify(Once) == PragmaOnce && env.classify(inc) == Include('<', q, '>')
    requires var sub := BuildTreeSpec(env, pushed, q, None);
             sub.0.Ok? && p in sub.1.cache && sub.1.cache[p] > 1
    ensures ParseSpec(env, pushed, p, [inc, Once], 0, Empty(p)) == (Ok(None), BuildTreeSpec(env, pushed, q, None).1)
  {
    var (r, after) := BuildTreeSpec(env, pushed, q, None);
    var o := ParseLineSpec(env, pushed, p, inc, 0);
    assert o.1 == after;
    var node := if r.value.Some? then Empty(p).WithChild(r.value.value) else Empty(p).WithLine("");
    if r.value.Some? {
      WithChildWellFormed(Empty(p), r.value.value);
    } else {
      WithLineWellFormed(Empty(p), "");
    }
    assert ParseLineSpec(env, after, p, Once, node.LinesCount()) == (Break, after);
    assert ParseSpec(env, after, p, [inc, Once], 1, node) == (Ok(None), after);
  }

  const Root: Path := ["root.c"]
  const Header: Path := ["a.h"]
  const IncRoot := "#include <root.c>"
  const IncHeader := "#include <a.h>"

  /** A root that includes a `#pragma once` header which includes the root
      back, with the root's own `#pragma once` after its include. */
  ghost predicate LatePragmaEnv(env: Env) {
    && env.provider == MemSources.FilesProvider(map[Root := [IncHeader, Once], Header := [Once, IncRoot]])
    && env.classify(IncRoot) == Include('<', Root, '>')
    && env.classify(IncHeader) == Include('<', Header, '>')
    && env.classify(Once) == PragmaOnce
  }

  lemma LatePragmaReads(env: Env, cwd: Option<Path>)
    requires LatePragmaEnv(env)
    requires cwd != Some([])
    ensures Closed(env.provider)
    ensures Root != Header
    ensures env.provider.read(Root, None) == Ok(Loaded(Root, [IncHeader, Once]))
    ensures env.provider.read(Header, None) == Ok(Loaded(Header, [Once, IncRoot]))
    ensures env.provider.read(Root, cwd) == Ok(Loaded(Root, [IncHeader, Once]))
  {
    assert Root[0][0] != Header[0][0];
    if cwd.Some? {
      assert |Paths.Join(cwd.value, Root)| > 1;
    }
  }

  /** Third level: the root entered again from the header is discarded by its
      own pragma, its include of the header having been discarded first. */
  lemma LatePragmaDepth2(env: Env)
    requires LatePragmaEnv(env)
    ensures Closed(env.provider)
    ensures BuildTreeSpec(env, State(map[Root := 1, Header := 1], [Root, Header]), Root, None)
            == (Ok(None), State(map[Root := 2, Header := 2], [Root, Header]))
  {
    LatePragmaReads(env, None);
    PushKeepsAtMostTwice([], Root);
    PushKeepsAtMostTwice([Root], Header);
    PushKeepsAtMostTwice([Root, Header], Root);
    var st := State(map[Root := 1, Header := 1], [Root, Header]);
    var pushed := State(map[Root := 2, Header := 1], [Root, Header, Root]);
    assert multiset(st.stack)[Root] == 1 && multiset(pushed.stack)[Header] == 1;
    assert State(Bumped(st.cache, Root), st.stack + [Root]) == pushed;
    PragmaOnceDiscardsRepeat(env, pushed, Header, None);
    assert Bumped(pushed.cache, Header) == map[Root := 2, Header := 2];
    IncludeThenOnceDiscarded(env, st, Root, None, Header, IncHeader);
  }

  /** Second level: the header, entered from the root, keeps two empty lines. */
  lemma LatePragmaDepth1(env: Env)
    requires LatePragmaEnv(env)
    ensures Closed(env.provider)
    ensures var out := BuildTreeSpec(env, State(map[Root := 1], [Root]), Header, None);
            out.0 == Ok(Some(Empty(Header).WithLine("").WithLine(""))) && out.1.cache == map[Root := 2, Header := 2]
  {
    LatePragmaReads(env, None);
    LatePragmaDepth2(env);
    PushKeepsAtMostTwice([], Root);
    PushKeepsAtMostTwice([Root], Header);
    var st := State(map[Root := 1], [Root]);
    var pushed := State(map[Root := 1, Header := 1], [Root, Header]);
    assert multiset(st.stack)[Header] == 0;
    assert State(Bumped(st.cache, Header), st.stack + [Header]) == pushed;
    OnceThenDiscardedInclude(env, pushed, Header, Root, IncRoot);
  }

  /** `#pragma once` then an include that is discarded: two empty lines, and
      the state the include left. */
  lemma OnceThenDiscardedInclude(env: Env, pushed: State, p: Path, q: Path, inc: string)
    requires Closed(env.provider) && AtMostTwice(pushed.stack)
    requires env.classify(Once) == PragmaOnce && env.classify(inc) == Include('<', q, '>')
    requires p in pushed.cache && pushed.cache[p] == 1
    requires BuildTreeSpec(env, pushed, q, None).0 == Ok(None)
    ensures ParseSpec(env, pushed, p, [Once, inc], 0, Empty(p))
            == (Ok(Some(Empty(p).WithLine("").WithLine(""))), BuildTreeSpec(env, pushed, q, None).1)
  {
    var after := BuildTreeSpec(env, pushed, q, None).1;
    var head := Empty(p).WithLine("");
    WithLineWellFormed(Empty(p), "");
    WithLineWellFormed(head, "");
    assert ParseLineSpec(env, pushed, p, Once, 0) == (Text(""), pushed);
    assert ParseLineSpec(env, pushed, p, inc, 1) == (Text(""), after);
    assert ParseSpec(env, pushed, p, [Once, inc], 1, head) == ParseSpec(env, after, p, [Once, inc], 2, head.WithLine(""));
  }

  /** A root whose `#pragma once` follows an include cycle that reads the
      root again is itself discarded: the top-level `build` of
      src/builder.rs panics on it, and `Parser::parse` of src/parser.rs
      reports it as not found, although the file exists. */
  lemma LatePragmaDiscardsRoot(env: Env, cwd: Option<Path>)
    requires LatePragmaEnv(env)
    requires cwd != Some([])
    ensures Closed(env.provider)
    ensures BuildOutcome(env, Root, cwd) == Panicked
    ensures ParseRoot(env, map[], Root).0 == Err(Fail(NotFound))
  {
    LatePragmaReads(env, cwd);
    LatePragmaDepth1(env);
    var st := State(map[], []);
    assert State(Bumped(st.cache, Root), st.stack + [Root]) == State(map[Root := 1], [Root]);
    IncludeThenOnceDiscarded(env, st, Root, cwd, Header, IncHeader);
    IncludeThenOnceDiscarded(env, st, Root, None, Header, IncHeader);
  }
}
