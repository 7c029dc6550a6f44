/** Properties of the per-line dispatch and the per-file scan of the gated
    resolver (src/parse/file_context.rs). */
module GatedProperties {
  import opened Errors
  import opened Providers
  import opened Paths
  import opened Lines
  import opened Nodes
  import opened Resolution
  import opened Gates
  import opened GatedEngine

  /** While some gate is closed, an include or a plain line becomes an empty
      line: nothing is read, no count changes and the gates stay as they are. */
  lemma ClosedGateBlanksLine(env: Env, st: State, canon: Path, line: string, lineNo: nat, gates: seq<Gate>)
    requires Closed(env.provider) && AtMostTwice(st.stack) && canon in st.cache
    requires env.classify(line).Include? || env.classify(line).Plain?
    requires !AllOpen(gates)
    ensures ParseLineSpec(env, st, canon, line, lineNo, gates) == (Text(""), st, gates)
  {
  }

  /** While every gate is open, a plain line is kept as it is. */
  lemma OpenGateKeepsLine(env: Env, st: State, canon: Path, line: string, lineNo: nat, gates: seq<Gate>)
    requires Closed(env.provider) && AtMostTwice(st.stack) && canon in st.cache
    requires env.classify(line).Plain? && AllOpen(gates)
    ensures ParseLineSpec(env, st, canon, line, lineNo, gates) == (Text(line), st, gates)
  {
  }

  /** `#pragma once` does not look at the gates: it breaks exactly when the
      file has been read more than once, otherwise it gives an empty line. */
  lemma PragmaOnceIgnoresGates(env: Env, st: State, canon: Path, line: string, lineNo: nat, gates: seq<Gate>)
    requires Closed(env.provider) && AtMostTwice(st.stack) && canon in st.cache
    requires env.classify(line) == PragmaOnce
    ensures var out := ParseLineSpec(env, st, canon, line, lineNo, gates);
            && (out.0 == Break <==> st.cache[canon] > 1)
            && (out.0 != Break ==> out.0 == Text(""))
            && out.1 == st && out.2 == gates
  {
  }

  /** `#ifdef`/`#ifndef` on a name without a value pushes Unknown and keeps
      the directive line, whatever the gates; whether the stack is open does
      not change. */
  lemma UnknownIfdefKeptVerbatim(env: Env, st: State, canon: Path, line: string, lineNo: nat, gates: seq<Gate>)
    requires Closed(env.provider) && AtMostTwice(st.stack) && canon in st.cache
    requires env.classify(line).IfDef? && env.classify(line).name !in env.flags
    ensures var out := ParseLineSpec(env, st, canon, line, lineNo, gates);
            out == (Text(line), st, gates + [Unknown]) && AllOpen(out.2) == AllOpen(gates)
  {
    PushUnknownKeepsOpen(gates);
  }

  /** `#ifdef`/`#ifndef` on a name with a value pushes a Known gate and gives
      an empty line. */
  lemma KnownIfdefBlank(env: Env, st: State, canon: Path, line: string, lineNo: nat, gates: seq<Gate>)
    requires Closed(env.provider) && AtMostTwice(st.stack) && canon in st.cache
    requires env.classify(line).IfDef? && env.classify(line).name in env.flags
    ensures var d := env.classify(line);
            var out := ParseLineSpec(env, st, canon, line, lineNo, gates);
            && out.0 == Text("") && out.1 == st && |out.2| == |gates| + 1 && out.2[..|gates|] == gates
            && out.2[|gates|] == Known(d.name, d.negated == env.flags[d.name])
  {
    assert (gates + [GateFor(env.classify(line).negated, env.classify(line).name, env.flags[env.classify(line).name])])[..|gates|] == gates;
  }

  /** `#endif` pops the innermost gate: an empty line for a Known gate, the
      directive line for an Unknown one. With no gate left it is an error of
      kind InvalidData that carries no position. */
  lemma EndIfPops(env: Env, st: State, canon: Path, line: string, lineNo: nat, gates: seq<Gate>)
    requires Closed(env.provider) && AtMostTwice(st.stack) && canon in st.cache
    requires env.classify(line) == EndIf
    ensures var out := ParseLineSpec(env, st, canon, line, lineNo, gates);
            && (gates == [] ==> out == (Failed(Error(InvalidData, [])), st, gates))
            && (gates != [] ==>
                  out.2 == gates[..|gates| - 1] && out.1 == st
                  && out.0 == (if gates[|gates| - 1].Known? then Text("") else Text(line)))
  {
  }

  /** An opening directive followed by `#endif` leaves the gates as they were. */
  lemma IfdefEndifRestoresGates(env: Env, st: State, canon: Path, open: string, close: string, n: nat, gates: seq<Gate>)
    requires Closed(env.provider) && AtMostTwice(st.stack) && canon in st.cache
    requires env.classify(open).IfDef? && env.classify(close) == EndIf
    ensures var first := ParseLineSpec(env, st, canon, open, n, gates);
            ParseLineSpec(env, first.1, canon, close, n + 1, first.2).2 == gates
  {
    var first := ParseLineSpec(env, st, canon, open, n, gates);
    assert first.1 == st && first.2[..|first.2| - 1] == gates;
  }

  /** A file whose first line is an unmatched `#endif` fails with InvalidData,
      with no position attached, and the state it leaves is the one it got. */
  lemma LeadingEndIfFails(env: Env, st: State, canon: Path, lines: seq<string>)
    requires Closed(env.provider) && AtMostTwice(st.stack) && canon in st.cache
    requires lines != [] && env.classify(lines[0]) == EndIf
    ensures ParseSpec(env, st, canon, lines, 0, Empty(canon), []) == (Err(Error(InvalidData, [])), st)
  {
    assert ParseLineSpec(env, st, canon, lines[0], 0, []) == (Failed(Error(InvalidData, [])), st, []);
  }

  /** With the flag set to true, `#ifdef FLAG` closes its gate: the body of
      the block is blanked out and the file is three empty lines. The
      corrected gate would keep the body. */
  lemma IfdefOfSetFlagBlanksBody(env: Env, st: State, canon: Path, open: string, body: string, close: string)
    requires Closed(env.provider) && AtMostTwice(st.stack) && canon in st.cache
    requires env.classify(open) == IfDef(false, "FLAG") && env.flags == map["FLAG" := true]
    requires env.classify(body) == Plain && env.classify(close) == EndIf
    ensures ParseSpec(env, st, canon, [open, body, close], 0, Empty(canon), [])
            == (Ok(Some(Empty(canon).WithLine("").WithLine("").WithLine(""))), st)
    ensures CorrectedGate(false, "FLAG", true).IsOpen()
  {
    var lines := [open, body, close];
    var g := [GateFor(false, "FLAG", true)];
    var n0 := Empty(canon);
    var n1 := n0.WithLine("");
    var n2 := n1.WithLine("");
    var n3 := n2.WithLine("");
    WithLineWellFormed(n0, "");
    WithLineWellFormed(n1, "");
    WithLineWellFormed(n2, "");
    assert ParseSpec(env, st, canon, lines, 3, n3, []) == (Ok(Some(n3)), st);
    assert ParseLineSpec(env, st, canon, close, 2, g) == (Text(""), st, []);
    assert ParseSpec(env, st, canon, lines, 2, n2, g) == (Ok(Some(n3)), st);
    assert !AllOpen(g);
    assert ParseLineSpec(env, st, canon, body, 1, g) == (Text(""), st, g);
    assert ParseSpec(env, st, canon, lines, 1, n1, g) == (Ok(Some(n3)), st);
    assert "FLAG" in env.flags && env.flags["FLAG"];
    assert [] + [GateFor(false, "FLAG", true)] == g;
    assert ParseLineSpec(env, st, canon, open, 0, []) == (Text(""), st, g);
  }

  /** The same block under the intended gate: with FLAG set, `#ifdef FLAG`
      pushes an open gate, so the body is kept and `#endif` pops back to no
      gates. The scan is shown from the line after the directive, with the
      corrected gate on the stack in place of the one the code pushes. */
  lemma CorrectedIfdefKeepsBody(env: Env, st: State, canon: Path, open: string, body: string, close: string)
    requires Closed(env.provider) && AtMostTwice(st.stack) && canon in st.cache
    requires env.classify(open) == IfDef(false, "FLAG") && env.flags == map["FLAG" := true]
    requires env.classify(body) == Plain && env.classify(close) == EndIf
    ensures var n1 := Empty(canon).WithLine("");
            ParseSpec(env, st, canon, [open, body, close], 1, n1, [CorrectedGate(false, "FLAG", true)])
            == (Ok(Some(n1.WithLine(body).WithLine(""))), st)
  {
    var lines := [open, body, close];
    var g := [CorrectedGate(false, "FLAG", true)];
    var n0 := Empty(canon);
    var n1 := n0.WithLine("");
    var n2 := n1.WithLine(body);
    var n3 := n2.WithLine("");
    WithLineWellFormed(n0, "");
    WithLineWellFormed(n1, body);
    WithLineWellFormed(n2, "");
    assert ParseSpec(env, st, canon, lines, 3, n3, []) == (Ok(Some(n3)), st);
    assert ParseLineSpec(env, st, canon, close, 2, g) == (Text(""), st, []);
    assert ParseSpec(env, st, canon, lines, 2, n2, g) == (Ok(Some(n3)), st);
    assert AllOpen(g);
    assert ParseLineSpec(env, st, canon, body, 1, g) == (Text(body), st, g);
  }

  /** A line the classifier takes for an include but whose brackets this
      generation's pattern does not accept is kept as it is, and nothing is
      read. */
  lemma UnshapedIncludeKept(env: Env, st: State, canon: Path, line: string, lineNo: nat, gates: seq<Gate>)
    requires Closed(env.provider) && AtMostTwice(st.stack) && canon in st.cache
    requires env.classify(line).Include? && AllOpen(gates)
    requires !IncludeShaped(env.classify(line).lb, env.classify(line).rb)
    ensures ParseLineSpec(env, st, canon, line, lineNo, gates) == (Text(line), st, gates)
  {
  }

  /** Under open gates, an include with mismatched accepted brackets (`<…"`
      or `"…>`) fails with InvalidData at this file and line; `<p>` is looked
      up with no directory and `"p"` in the directory of the including file.
      A found file is spliced in, a discarded one gives an empty line, and an
      error keeps its kind and gains one frame: this file and the 0-based
      number of the include line. The gates are unchanged. */
  lemma IncludeResolved(env: Env, st: State, canon: Path, line: string, lineNo: nat, gates: seq<Gate>)
    requires Closed(env.provider) && AtMostTwice(st.stack) && canon in st.cache
    requires env.classify(line).Include? && AllOpen(gates)
    requires IncludeShaped(env.classify(line).lb, env.classify(line).rb)
    ensures var d := env.classify(line);
            var out := ParseLineSpec(env, st, canon, line, lineNo, gates);
            && out.2 == gates
            && (!(d.lb == '<' && d.rb == '>') && !(d.lb == '"' && d.rb == '"') ==>
                  out == (Failed(Error(InvalidData, [Frame(canon, lineNo)])), st, gates))
    ensures var d := env.classify(line);
            var dir := if d.lb == '<' then None else Some(Parent(canon));
            var (r, after) := BuildTreeSpec(env, st, d.path, dir);
            var out := ParseLineSpec(env, st, canon, line, lineNo, gates);
            ((d.lb == '<' && d.rb == '>') || (d.lb == '"' && d.rb == '"')) ==>
              && out.1 == after
              && (r.Ok? && r.value.Some? ==> out.0 == Splice(r.value.value))
              && (r == Ok(None) ==> out.0 == Text(""))
              && (r.Err? ==> out.0.Failed? && out.0.error.kind == r.error.kind
                             && out.0.error.trace == r.error.trace + [Frame(canon, lineNo)])
  {  assert Fail(InvalidData).At(canon, lineNo) == Error(InvalidData, [Frame(canon, lineNo)]);
  }
}
