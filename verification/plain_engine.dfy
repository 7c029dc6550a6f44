/** The gate-free include resolver of src/parser.rs (`Context`), which is
    line for line the resolver of src/builder.rs (`Builder`): read a file
    through the provider, count the read, refuse a file already twice on the
    file stack, scan its lines for `#include` and `#pragma once`, and recurse.

    The functions below are the specification; the class `Context` is the
    imperative resolver, proved to compute exactly what they say. */
module PlainEngine {
  import opened Errors
  import opened Paths
  import opened Providers
  import opened Lines
  import opened Nodes
  import opened Resolution

  /** What it only reads: the provider and the directive classifier. */
  datatype Env = Env(provider: Provider, classify: string -> Directive)

  /** `build_tree`: the result of resolving `path` and the state after it. */
  function BuildTreeSpec(env: Env, st: State, path: Path, dir: Option<Path>): (out: (Result<Option<Tree>>, State))
    requires Closed(env.provider) && AtMostTwice(st.stack)
    ensures Grows(st, out.1) && AtMostTwice(out.1.stack)
    ensures out.0.Ok? ==> out.1.stack == st.stack
    ensures out.0.Ok? && out.0.value.Some? ==> WellFormed(out.0.value.value)
    decreases Budget(env.provider.universe, st.stack), 0, 0
  {
    match env.provider.read(path, dir)
    case Err(e) => (Err(e), st)
    case Ok(Loaded(canon, lines)) =>
      var cache := Bumped(st.cache, canon);
      BumpedGrows(st, canon);
      if multiset(st.stack)[canon] >= 2 then
        (Err(Fail(InvalidData)), State(cache, st.stack))
      else
        PushShrinksBudget(env.provider.universe, st.stack, canon);
        PushKeepsAtMostTwice(st.stack, canon);
        var pushed := State(cache, st.stack + [canon]);
        var (r, after) := ParseSpec(env, pushed, canon, lines, 0, Empty(canon));
        GrowsTrans(st, pushed, after);
        if r.Ok? then (r, State(after.cache, st.stack)) else (r, after)
  }

  /** A file already twice on the stack is refused with InvalidData and not
      scanned; its read has been counted all the same, and the stack is
      left as it was. */
  lemma RecursionFound(env: Env, st: State, path: Path, dir: Option<Path>)
    requires Closed(env.provider) && AtMostTwice(st.stack)
    requires env.provider.read(path, dir).Ok?
    requires multiset(st.stack)[env.provider.read(path, dir).value.canon] >= 2
    ensures var canon := env.provider.read(path, dir).value.canon;
            BuildTreeSpec(env, st, path, dir) == (Err(Fail(InvalidData)), State(Bumped(st.cache, canon), st.stack))
  {
  }

  /** A file that starts with `#pragma once` and has been read before is
      discarded on its next entry, and contributes nothing but its count. */
  lemma PragmaOnceDiscardsRepeat(env: Env, st: State, path: Path, dir: Option<Path>)
    requires Closed(env.provider) && AtMostTwice(st.stack)
    requires env.provider.read(path, dir).Ok?
    requires var l := env.provider.read(path, dir).value;
             && l.lines != [] && env.classify(l.lines[0]) == PragmaOnce
             && l.canon in st.cache && st.cache[l.canon] >= 1 && multiset(st.stack)[l.canon] < 2
    ensures var canon := env.provider.read(path, dir).value.canon;
            BuildTreeSpec(env, st, path, dir) == (Ok(None), State(Bumped(st.cache, canon), st.stack))
  {
    var l := env.provider.read(path, dir).value;
    PushKeepsAtMostTwice(st.stack, l.canon);
    var pushed := State(Bumped(st.cache, l.canon), st.stack + [l.canon]);
    assert pushed.cache[l.canon] == st.cache[l.canon] + 1 > 1;
    assert ParseLineSpec(env, pushed, l.canon, l.lines[0], 0) == (Break, pushed);
    var out := ParseSpec(env, pushed, l.canon, l.lines, 0, Empty(l.canon));
    assert out == (Ok(None), pushed);
    assert BuildTreeSpec(env, st, path, dir) == (Ok(None), State(pushed.cache, st.stack));
  }

  /** `parse_file` from line `i` on, with `node` holding the lines before. */
  function ParseSpec(env: Env, st: State, canon: Path, lines: seq<string>, i: nat, node: Tree)
    : (out: (Result<Option<Tree>>, State))
    requires Closed(env.provider) && AtMostTwice(st.stack)
    requires canon in st.cache && i <= |lines| && WellFormed(node)
    ensures Grows(st, out.1) && AtMostTwice(out.1.stack)
    ensures out.0.Ok? ==> out.1.stack == st.stack
    ensures out.0.Ok? && out.0.value.Some? ==>
              WellFormed(out.0.value.value)
              && out.0.value.value.LinesCount() == node.LinesCount() + |lines| - i
    decreases Budget(env.provider.universe, st.stack), 2, |lines| - i
  {
    if i == |lines| then (Ok(Some(node)), st)
    else
      var (o, after) := ParseLineSpec(env, st, canon, lines[i], node.LinesCount());
      match o
      case Text(s) =>
        WithLineWellFormed(node, s);
        var rest := ParseSpec(env, after, canon, lines, i + 1, node.WithLine(s));
        GrowsTrans(st, after, rest.1);
        rest
      case Splice(child) =>
        WithChildWellFormed(node, child);
        var rest := ParseSpec(env, after, canon, lines, i + 1, node.WithChild(child));
        GrowsTrans(st, after, rest.1);
        rest
      case Break => (Ok(None), after)
      case Failed(e) => (Err(e), after)
  }

  /** `parse_line`: `#include` first, then `#pragma once`, else literal text. */
  function ParseLineSpec(env: Env, st: State, canon: Path, line: string, lineNo: nat)
    : (out: (LineOutcome, State))
    requires Closed(env.provider) && AtMostTwice(st.stack) && canon in st.cache
    ensures Grows(st, out.1) && AtMostTwice(out.1.stack)
    ensures !out.0.Failed? ==> out.1.stack == st.stack
    ensures out.0.Splice? ==> WellFormed(out.0.child)
    decreases Budget(env.provider.universe, st.stack), 1, 0
  {
    match env.classify(line)
    case Include(lb, path, rb) =>
      if !(lb == '<' && rb == '>') && !(lb == '"' && rb == '"') then
        (Failed(Fail(InvalidData).At(canon, lineNo)), st)
      else
        var dir := if lb == '<' then None else Some(Parent(canon));
        var (r, after) := BuildTreeSpec(env, st, path, dir);
        (match r
         case Ok(Some(child)) => (Splice(child), after)
         case Ok(None) => (Text(""), after)
         case Err(e) => (Failed(e.At(canon, lineNo)), after))
    case PragmaOnce =>
      if st.cache[canon] > 1 then (Break, st) else (Text(""), st)
    case _ => (Text(line), st)
  }

  /** The resolver state of one top-level parse: the provider and classifier
      it reads, the occurrence cache (borrowed from the parser) and the stack
      of files being scanned. */
  class Context {
    const env: Env
    var cache: Counts
    var stack: seq<Path>

    ghost predicate Valid()
      reads this
    {
      Closed(env.provider) && AtMostTwice(stack)
    }

    function StateOf(): State
      reads this
    {
      State(cache, stack)
    }

    /** `Context::new`: the given cache and an empty file stack. */
    constructor (env: Env, cache: Counts)
      requires Closed(env.provider)
      ensures Valid() && this.env == env && this.cache == cache && stack == []
    {
      this.env := env;
      this.cache := cache;
      stack := [];
    }

    /** `read_file`: the provider's answer; a successful read counts the
        canonical path once more and nothing else changes. */
    method ReadFile(path: Path, dir: Option<Path>) returns (r: Result<Loaded>)
      modifies this
      ensures r == env.provider.read(path, dir) && stack == old(stack)
      ensures r.Ok? ==> cache == Bumped(old(cache), r.value.canon)
      ensures r.Err? ==> cache == old(cache)
    {
      r := env.provider.read(path, dir);
      if r.Ok? {
        var canon := r.value.canon;
        if canon in cache {
          cache := cache[canon := cache[canon] + 1];
        } else {
          cache := cache[canon := 1];
        }
      }
    }

    /** `build_tree`: read, refuse a path already twice on the stack, push,
        scan, pop. On success the stack is what it was before the call. */
    method BuildTree(path: Path, dir: Option<Path>) returns (r: Result<Option<Tree>>)
      requires Valid()
      modifies this
      ensures Valid()
      ensures (r, StateOf()) == BuildTreeSpec(env, old(StateOf()), path, dir)
      ensures r.Ok? ==> stack == old(stack)
      decreases Budget(env.provider.universe, stack), 0, 0
    {
      var read := ReadFile(path, dir);
      if read.Err? {
        return Err(read.error);
      }
      var canon, lines := read.value.canon, read.value.lines;
      if multiset(stack)[canon] >= 2 {
        return Err(Fail(InvalidData));
      }
      PushShrinksBudget(env.provider.universe, stack, canon);
      PushKeepsAtMostTwice(stack, canon);
      ghost var before := stack;
      stack := stack + [canon];
      r := ParseFile(canon, lines);
      if r.Ok? {
        assert stack == before + [canon];
        stack := stack[..|stack| - 1];
      }
    }

    /** `parse_file`: one output line per input line, stopping at the first
        break or error. */
    method ParseFile(canon: Path, lines: seq<string>) returns (r: Result<Option<Tree>>)
      requires Valid() && canon in cache
      modifies this
      ensures Valid()
      ensures (r, StateOf()) == ParseSpec(env, old(StateOf()), canon, lines, 0, Empty(canon))
      decreases Budget(env.provider.universe, stack), 2, 0
    {
      var node := new Node(canon);
      ghost var start := StateOf();
      var i := 0;
      while i < |lines|
        invariant 0 <= i <= |lines|
        invariant fresh(node) && node.Valid()
        invariant Valid() && canon in cache && stack == start.stack
        invariant ParseSpec(env, start, canon, lines, 0, Empty(canon))
                  == ParseSpec(env, StateOf(), canon, lines, i, node.Value())
      {
        var o := ParseLine(canon, lines[i], node);
        match o {
          case Text(s) =>
            node.AddLine(s);
          case Splice(child) =>
            node.AddChild(child);
          case Break =>
            return Ok(None);
          case Failed(e) =>
            return Err(e);
        }
        i := i + 1;
      }
      r := Ok(Some(node.Value()));
    }

    /** `parse_line`. The line number given to an include error is the
        number of lines the node holds, i.e. the 0-based index of this line. */
    method ParseLine(canon: Path, line: string, node: Node) returns (o: LineOutcome)
      requires Valid() && canon in cache
      modifies this
      ensures Valid()
      ensures (o, StateOf()) == ParseLineSpec(env, old(StateOf()), canon, line, node.LinesCount())
      decreases Budget(env.provider.universe, stack), 1, 0
    {
      match env.classify(line)
      case Include(lb, path, rb) =>
        var dir: Option<Path>;
        if lb == '<' && rb == '>' {
          dir := None;
        } else if lb == '"' && rb == '"' {
          dir := Some(Parent(canon));
        } else {
          return Failed(Fail(InvalidData).At(canon, node.LinesCount()));
        }
        var r := BuildTree(path, dir);
        match r {
          case Ok(Some(child)) => o := Splice(child);
          case Ok(None) => o := Text("");
          case Err(e) => o := Failed(e.At(canon, node.LinesCount()));
        }
      case PragmaOnce =>
        o := if cache[canon] > 1 then Break else Text("");
      case _ =>
        o := Text(line);
    }
  }
}
