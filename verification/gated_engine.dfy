/** The gated include resolver of src/parse/context.rs and
    src/parse/file_context.rs. It resolves `#include` and `#pragma once` like
    the gate-free resolver, and in addition keeps, per file, a stack of
    `#ifdef`/`#ifndef` gates against a map of flags: while a gate is closed,
    plain lines and includes give empty lines.

    The functions are the specification; the classes `Context` and
    `FileContext` are the imperative resolver, proved to compute exactly
    what they say. */
module GatedEngine {
  import opened Errors
  import opened Paths
  import opened Providers
  import opened Lines
  import opened Nodes
  import opened Resolution
  import opened Gates

  /** `Flags`: flag name to value. */
  type Flags = map<string, bool>

  /** What the resolver only reads: the source, the classifier and the flags. */
  datatype Env = Env(provider: Provider, classify: string -> Directive, flags: Flags)

  /** The bracket characters the include pattern of this generation accepts:
      `<` or `"` on the left and `>` or `"` on the right. */
  predicate IncludeShaped(lb: char, rb: char) {
    (lb == '<' || lb == '"') && (rb == '>' || rb == '"')
  }

  /** The gate `#ifdef NAME` (`negated` false) or `#ifndef NAME` pushes when
      NAME has a value: open exactly when the directive's sense differs from
      the flag's value. */
  function GateFor(negated: bool, name: string, flag: bool): (g: Gate)
    ensures g.Known? && g.name == name
    ensures g.IsOpen() <==> (negated == flag)
  {
    Known(name, !negated != flag)
  }

  /** The gate the directive evidently means: `#ifdef` open on a set flag,
      `#ifndef` open on an unset one. */
  function CorrectedGate(negated: bool, name: string, flag: bool): (g: Gate)
    ensures g.Known? && g.name == name
    ensures g.IsOpen() <==> (negated != flag)
  {
    Known(name, !negated == flag)
  }

  /** The two differ in openness on every input. */
  lemma GateForIsInverted(negated: bool, name: string, flag: bool)
    ensures GateFor(negated, name, flag).IsOpen() != CorrectedGate(negated, name, flag).IsOpen()
    ensures !GateFor(false, name, true).IsOpen() && CorrectedGate(false, name, true).IsOpen()
  {
  }

  /** `build_tree`: the result of resolving `path` and the state after it. */
  function BuildTreeSpec(env: Env, st: State, path: Path, dir: Option<Path>): (out: (Result<Option<Tree>>, State))
    requires Closed(env.provider) && AtMostTwice(st.stack)
    ensures Grows(st, out.1) && AtMostTwice(out.1.stack)
    ensures out.0.Ok? ==> out.1.stack == st.stack
    ensures out.0.Ok? && out.0.value.Some? ==> WellFormed(out.0.value.value)
    decreases Budget(env.provider.universe, st.stack), 0, 0
  {
    match env.provider.read(path, dir)
    case Err(e) => (Err(e), st)
    case Ok(Loaded(canon, lines)) =>
      var cache := Bumped(st.cache, canon);
      BumpedGrows(st, canon);
      if multiset(st.stack)[canon] >= 2 then
        (Err(Fail(InvalidData)), State(cache, st.stack))
      else
        PushShrinksBudget(env.provider.universe, st.stack, canon);
        PushKeepsAtMostTwice(st.stack, canon);
        var pushed := State(cache, st.stack + [canon]);
        var (r, after) := ParseSpec(env, pushed, canon, lines, 0, Empty(canon), []);
        GrowsTrans(st, pushed, after);
        if r.Ok? then (r, State(after.cache, st.stack)) else (r, after)
  }

  /** The three ways `build_tree` ends: the read fails, the path is refused
      as a recursion, or the file is scanned on a stack one entry higher. */
  lemma BuildTreeCases(env: Env, st: State, path: Path, dir: Option<Path>)
    requires Closed(env.provider) && AtMostTwice(st.stack)
    ensures var read := env.provider.read(path, dir);
            read.Err? ==> BuildTreeSpec(env, st, path, dir) == (Err(read.error), st)
    ensures var read := env.provider.read(path, dir);
            read.Ok? && multiset(st.stack)[read.value.canon] >= 2 ==>
              BuildTreeSpec(env, st, path, dir) == (Err(Fail(InvalidData)), State(Bumped(st.cache, read.value.canon), st.stack))
    ensures var read := env.provider.read(path, dir);
            read.Ok? && multiset(st.stack)[read.value.canon] < 2 ==>
              var canon := read.value.canon;
              var pushed := State(Bumped(st.cache, canon), st.stack + [canon]);
              && AtMostTwice(pushed.stack) && canon in pushed.cache
              && var out := ParseSpec(env, pushed, canon, read.value.lines, 0, Empty(canon), []);
                 BuildTreeSpec(env, st, path, dir) == if out.0.Ok? then (out.0, State(out.1.cache, st.stack)) else out
  {
    var read := env.provider.read(path, dir);
    if read.Ok? && multiset(st.stack)[read.value.canon] < 2 {
      PushKeepsAtMostTwice(st.stack, read.value.canon);
      BumpedGrows(st, read.value.canon);
    }
  }

  /** `FileContext::parse` from line `i` on, with `node` holding the lines
      before and `gates` the gate stack reached. Gates still open at the end
      of the file are not an error. */
  function ParseSpec(env: Env, st: State, canon: Path, lines: seq<string>, i: nat, node: Tree, gates: seq<Gate>)
    : (out: (Result<Option<Tree>>, State))
    requires Closed(env.provider) && AtMostTwice(st.stack)
    requires canon in st.cache && i <= |lines| && WellFormed(node)
    ensures Grows(st, out.1) && AtMostTwice(out.1.stack)
    ensures out.0.Ok? ==> out.1.stack == st.stack
    ensures out.0.Ok? && out.0.value.Some? ==>
              WellFormed(out.0.value.value)
              && out.0.value.value.LinesCount() == node.LinesCount() + |lines| - i
    decreases Budget(env.provider.universe, st.stack), 2, |lines| - i
  {
    if i == |lines| then (Ok(Some(node)), st)
    else
      var (o, after, gates') := ParseLineSpec(env, st, canon, lines[i], node.LinesCount(), gates);
      match o
      case Text(s) =>
        WithLineWellFormed(node, s);
        var rest := ParseSpec(env, after, canon, lines, i + 1, node.WithLine(s), gates');
        GrowsTrans(st, after, rest.1);
        rest
      case Splice(child) =>
        WithChildWellFormed(node, child);
        var rest := ParseSpec(env, after, canon, lines, i + 1, node.WithChild(child), gates');
        GrowsTrans(st, after, rest.1);
        rest
      case Break => (Ok(None), after)
      case Failed(e) => (Err(e), after)
  }

  /** One line of `parse`: what the line gives decides how the rest of the
      file continues. */
  lemma ParseStep(env: Env, st: State, canon: Path, lines: seq<string>, i: nat, node: Tree, gates: seq<Gate>)
    requires Closed(env.provider) && AtMostTwice(st.stack)
    requires canon in st.cache && i < |lines| && WellFormed(node)
    ensures var (o, after, gates') := ParseLineSpec(env, st, canon, lines[i], node.LinesCount(), gates);
            && AtMostTwice(after.stack) && canon in after.cache
            && (o.Text? ==>
                  WellFormed(node.WithLine(o.line))
                  && ParseSpec(env, st, canon, lines, i, node, gates)
                     == ParseSpec(env, after, canon, lines, i + 1, node.WithLine(o.line), gates'))
            && (o.Splice? ==>
                  WellFormed(node.WithChild(o.child))
                  && ParseSpec(env, st, canon, lines, i, node, gates)
                     == ParseSpec(env, after, canon, lines, i + 1, node.WithChild(o.child), gates'))
            && (o.Break? ==> ParseSpec(env, st, canon, lines, i, node, gates) == (Ok(None), after))
            && (o.Failed? ==> ParseSpec(env, st, canon, lines, i, node, gates) == (Err(o.error), after))
  {
    var (o, after, gates') := ParseLineSpec(env, st, canon, lines[i], node.LinesCount(), gates);
    if o.Text? {
      WithLineWellFormed(node, o.line);
    } else if o.Splice? {
      WithChildWellFormed(node, o.child);
    }
  }

  /** `FileContext::parse_line`: `#ifdef`/`#ifndef`, then `#endif`, then
      `#pragma once`, and only while every gate is open `#include` or the
      literal line; a line under a closed gate becomes an empty line. */
  function ParseLineSpec(env: Env, st: State, canon: Path, line: string, lineNo: nat, gates: seq<Gate>)
    : (out: (LineOutcome, State, seq<Gate>))
    requires Closed(env.provider) && AtMostTwice(st.stack) && canon in st.cache
    ensures Grows(st, out.1) && AtMostTwice(out.1.stack)
    ensures !out.0.Failed? ==> out.1.stack == st.stack
    ensures out.0.Splice? ==> WellFormed(out.0.child)
    decreases Budget(env.provider.universe, st.stack), 1, 0
  {
    match env.classify(line)
    case IfDef(negated, name) =>
      if name in env.flags then (Text(""), st, gates + [GateFor(negated, name, env.flags[name])])
      else (Text(line), st, gates + [Unknown])
    case EndIf =>
      if gates == [] then (Failed(Fail(InvalidData)), st, gates)
      else (if gates[|gates| - 1].Known? then Text("") else Text(line), st, gates[..|gates| - 1])
    case PragmaOnce =>
      (if st.cache[canon] > 1 then Break else Text(""), st, gates)
    case Include(lb, path, rb) =>
      if !AllOpen(gates) then (Text(""), st, gates)
      else if !IncludeShaped(lb, rb) then (Text(line), st, gates)
      else if !(lb == '<' && rb == '>') && !(lb == '"' && rb == '"') then
        (Failed(Fail(InvalidData).At(canon, lineNo)), st, gates)
      else
        var dir := if lb == '<' then None else Some(Parent(canon));
        var (r, after) := BuildTreeSpec(env, st, path, dir);
        (match r
         case Ok(Some(child)) => Splice(child)
         case Ok(None) => Text("")
         case Err(e) => Failed(e.At(canon, lineNo)), after, gates)
    case Plain =>
      (if AllOpen(gates) then Text(line) else Text(""), st, gates)
  }

  /** `Context`: the source, the flags, the occurrence cache borrowed from
      the parser and the stack of files being scanned. */
  class Context {
    const env: Env
    var cache: Counts
    var stack: seq<Path>

    ghost predicate Valid()
      reads this
    {
      Closed(env.provider) && AtMostTwice(stack)
    }

    function StateOf(): State
      reads this
    {
      State(cache, stack)
    }

    /** `Context::new`: the given flags and cache, an empty file stack. */
    constructor (env: Env, cache: Counts)
      requires Closed(env.provider)
      ensures Valid() && this.env == env && this.cache == cache && stack == []
    {
      this.env := env;
      this.cache := cache;
      stack := [];
    }

    /** `flags`: the map given to `new`. */
    function Flags(): (f: Flags)
      ensures f == env.flags
    {
      env.flags
    }

    /** `is_file_occured`: the file has been read more than once. */
    function IsFileOccured(path: Path): (r: bool)
      reads this
      requires path in cache
      ensures r <==> cache[path] >= 2
    {
      cache[path] > 1
    }

    /** `read_file`: the source's answer; a successful read counts the
        canonical path once more and nothing else changes. */
    method ReadFile(path: Path, dir: Option<Path>) returns (r: Result<Loaded>)
      modifies this
      ensures r == env.provider.read(path, dir) && stack == old(stack)
      ensures r.Ok? ==> cache == Bumped(old(cache), r.value.canon)
      ensures r.Err? ==> cache == old(cache)
    {
      r := env.provider.read(path, dir);
      if r.Ok? {
        var canon := r.value.canon;
        if canon in cache {
          cache := cache[canon := cache[canon] + 1];
        } else {
          cache := cache[canon := 1];
        }
      }
    }

    /** `build_tree`: read, refuse a path already twice on the stack, push,
        scan, pop. On success the stack is what it was before the call. */
    method BuildTree(path: Path, dir: Option<Path>) returns (r: Result<Option<Tree>>)
      requires Valid()
      modifies this
      ensures Valid()
      ensures (r, StateOf()) == BuildTreeSpec(env, old(StateOf()), path, dir)
      ensures r.Ok? ==> stack == old(stack)
      decreases Budget(env.provider.universe, stack), 0, 0
    {
      BuildTreeCases(env, StateOf(), path, dir);
      var read := ReadFile(path, dir);
      if read.Err? {
        return Err(read.error);
      }
      var canon, lines := read.value.canon, read.value.lines;
      if multiset(stack)[canon] >= 2 {
        return Err(Fail(InvalidData));
      }
      PushShrinksBudget(env.provider.universe, stack, canon);
      ghost var before := stack;
      stack := stack + [canon];
      r := ParseFile(canon, lines);
      if r.Ok? {
        assert stack == before + [canon];
        stack := stack[..|stack| - 1];
      }
    }

    /** `parse_file`: a new file context over this context. */
    method ParseFile(canon: Path, lines: seq<string>) returns (r: Result<Option<Tree>>)
      requires Valid() && canon in cache
      modifies this
      ensures Valid()
      ensures (r, StateOf()) == ParseSpec(env, old(StateOf()), canon, lines, 0, Empty(canon), [])
      decreases Budget(env.provider.universe, stack), 4, 0
    {
      var file := new FileContext(canon, this);
      r := file.Parse(lines);
    }
  }

  /** `FileContext`: the node of one file, the context, and the file's own
      gate stack. */
  class FileContext {
    const node: Node
    const ctx: Context
    const gates: GateStack

    /** `FileContext::new`: an empty node named `path` and an empty, open
        gate stack. */
    constructor (path: Path, ctx: Context)
      ensures this.ctx == ctx && fresh(node) && fresh(gates)
      ensures node.Valid() && node.Value() == Empty(path)
      ensures gates.Valid() && gates.stack == []
    {
      node := new Node(path);
      this.ctx := ctx;
      gates := new GateStack();
    }

    /** `parse`: one output line per input line, stopping at the first break
        or error. */
    method Parse(lines: seq<string>) returns (r: Result<Option<Tree>>)
      requires ctx.Valid() && node.Valid() && gates.Valid() && node.name in ctx.cache
      modifies node, gates, ctx
      ensures ctx.Valid()
      ensures (r, ctx.StateOf())
              == ParseSpec(ctx.env, old(ctx.StateOf()), old(node.name), lines, 0, old(node.Value()), old(gates.stack))
      decreases Budget(ctx.env.provider.universe, ctx.stack), 3, 0
    {
      ghost var start, canon, first, gates0 := ctx.StateOf(), node.name, node.Value(), gates.stack;
      var i := 0;
      while i < |lines|
        invariant 0 <= i <= |lines|
        invariant node.Valid() && gates.Valid() && node.name == canon
        invariant ctx.Valid() && canon in ctx.cache && ctx.stack == start.stack
        invariant ParseSpec(ctx.env, start, canon, lines, 0, first, gates0)
                  == ParseSpec(ctx.env, ctx.StateOf(), canon, lines, i, node.Value(), gates.stack)
      {
        var stop := Step(lines, i);
        if stop.Some? {
          return stop.value;
        }
        i := i + 1;
      }
      r := Ok(Some(node.Value()));
    }

    /** The body of the loop of `parse`: scan line `i` and apply its outcome
        to the node, or stop with the result of the whole file. */
    method Step(lines: seq<string>, i: nat) returns (stop: Option<Result<Option<Tree>>>)
      requires i < |lines|
      requires ctx.Valid() && node.Valid() && gates.Valid() && node.name in ctx.cache
      modifies node, gates, ctx
      ensures ctx.Valid() && node.Valid() && gates.Valid() && node.name == old(node.name)
      ensures stop.None? ==>
                && node.name in ctx.cache && ctx.stack == old(ctx.stack)
                && ParseSpec(ctx.env, old(ctx.StateOf()), node.name, lines, i, old(node.Value()), old(gates.stack))
                   == ParseSpec(ctx.env, ctx.StateOf(), node.name, lines, i + 1, node.Value(), gates.stack)
      ensures stop.Some? ==>
                (stop.value, ctx.StateOf())
                == ParseSpec(ctx.env, old(ctx.StateOf()), node.name, lines, i, old(node.Value()), old(gates.stack))
      decreases Budget(ctx.env.provider.universe, ctx.stack), 2, 0
    {
      ParseStep(ctx.env, ctx.StateOf(), node.name, lines, i, node.Value(), gates.stack);
      var o := ParseLine(lines[i]);
      match o {
        case Text(s) =>
          node.AddLine(s);
          stop := None;
        case Splice(child) =>
          node.AddChild(child);
          stop := None;
        case Break =>
          stop := Some(Ok(None));
        case Failed(e) =>
          stop := Some(Err(e));
      }
    }

    /** `parse_line`. An include error carries this file and the number of
        lines the node holds, i.e. the 0-based index of this line. */
    method ParseLine(line: string) returns (o: LineOutcome)
      requires ctx.Valid() && gates.Valid() && node.name in ctx.cache
      modifies gates, ctx
      ensures ctx.Valid() && gates.Valid()
      ensures (o, ctx.StateOf(), gates.stack)
              == ParseLineSpec(ctx.env, old(ctx.StateOf()), node.name, line, node.LinesCount(), old(gates.stack))
      decreases Budget(ctx.env.provider.universe, ctx.stack), 1, 0
    {
      var path := node.Name();
      match ctx.env.classify(line)
      case IfDef(negated, name) =>
        if name in ctx.Flags() {
          gates.Push(GateFor(negated, name, ctx.Flags()[name]));
          o := Text("");
        } else {
          gates.Push(Unknown);
          o := Text(line);
        }
      case EndIf =>
        var top := gates.Pop();
        match top {
          case Some(g) => o := if g.Known? then Text("") else Text(line);
          case None => o := Failed(Fail(InvalidData));
        }
      case PragmaOnce =>
        o := if ctx.IsFileOccured(path) then Break else Text("");
      case Include(lb, incPath, rb) =>
        if !gates.IsOpen() {
          o := Text("");
        } else if !IncludeShaped(lb, rb) {
          o := Text(line);
        } else {
          var dir: Option<Path>;
          if lb == '<' && rb == '>' {
            dir := None;
          } else if lb == '"' && rb == '"' {
            dir := Some(Parent(path));
          } else {
            return Failed(Fail(InvalidData).At(path, node.LinesCount()));
          }
          var r := ctx.BuildTree(incPath, dir);
          match r {
            case Ok(Some(child)) => o := Splice(child);
            case Ok(None) => o := Text("");
            case Err(e) => o := Failed(e.At(path, node.LinesCount()));
          }
        }
      case Plain =>
        o := if gates.IsOpen() then Text(line) else Text("");
    }
  }
}
