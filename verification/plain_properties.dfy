/** Properties of the per-line dispatch of the gate-free resolver
    (src/parser.rs and src/builder.rs). */
module PlainProperties {
  import opened Errors
  import opened Paths
  import opened Providers
  import opened Lines
  import opened Nodes
  import opened Resolution
  import opened PlainEngine

  /** Only `#include` and `#pragma once` are directives here: every other
      line, conditional directives included, is kept as it is and changes
      nothing. */
  lemma OtherLinesKept(env: Env, st: State, canon: Path, line: string, lineNo: nat)
    requires Closed(env.provider) && AtMostTwice(st.stack) && canon in st.cache
    requires !env.classify(line).Include? && !env.classify(line).PragmaOnce?
    ensures ParseLineSpec(env, st, canon, line, lineNo) == (Text(line), st)
  {
  }

  /** `#pragma once` breaks exactly when the file has been read more than
      once, and otherwise gives an empty line; it changes nothing. */
  lemma PragmaOnceLine(env: Env, st: State, canon: Path, line: string, lineNo: nat)
    requires Closed(env.provider) && AtMostTwice(st.stack) && canon in st.cache
    requires env.classify(line) == PragmaOnce
    ensures var out := ParseLineSpec(env, st, canon, line, lineNo);
            && (out.0 == Break <==> st.cache[canon] > 1)
            && (out.0 != Break ==> out.0 == Text(""))
            && out.1 == st
  {
  }

  /** An include whose brackets are neither `<…>` nor `"…"` fails with
      InvalidData at this file and line, and nothing is read. */
  lemma BadBracketsFail(env: Env, st: State, canon: Path, line: string, lineNo: nat)
    requires Closed(env.provider) && AtMostTwice(st.stack) && canon in st.cache
    requires env.classify(line).Include?
    requires var d := env.classify(line); !(d.lb == '<' && d.rb == '>') && !(d.lb == '"' && d.rb == '"')
    ensures ParseLineSpec(env, st, canon, line, lineNo) == (Failed(Error(InvalidData, [Frame(canon, lineNo)])), st)
  {  assert Fail(InvalidData).At(canon, lineNo) == Error(InvalidData, [Frame(canon, lineNo)]);
  }

  /** `<p>` is looked up with no directory and `"p"` in the directory of the
      including file. A found file is spliced in, a discarded one gives an
      empty line, and an error keeps its kind and gains one frame: this file
      and the 0-based number of the include line. */
  lemma IncludeResolved(env: Env, st: State, canon: Path, line: string, lineNo: nat)
    requires Closed(env.provider) && AtMostTwice(st.stack) && canon in st.cache
    requires env.classify(line).Include?
    requires var d := env.classify(line); (d.lb == '<' && d.rb == '>') || (d.lb == '"' && d.rb == '"')
    ensures var d := env.classify(line);
            var dir := if d.lb == '<' then None else Some(Parent(canon));
            var (r, after) := BuildTreeSpec(env, st, d.path, dir);
            var out := ParseLineSpec(env, st, canon, line, lineNo);
            && out.1 == after
            && (r.Ok? && r.value.Some? ==> out.0 == Splice(r.value.value))
            && (r == Ok(None) ==> out.0 == Text(""))
            && (r.Err? ==> out.0.Failed? && out.0.error.kind == r.error.kind
                           && out.0.error.trace == r.error.trace + [Frame(canon, lineNo)])
  {
  }
}
