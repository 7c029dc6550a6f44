/** The `single_header` fixture of src/tests.rs on the gate-free resolver: a
    `#pragma once` header included twice by the root appears once, and its
    second include line becomes one empty line. */
module HeaderScenarios {
  import opened Errors
  import opened Providers
  import opened Lines
  import opened Nodes
  import opened Resolution
  import opened PlainEngine
  import opened PlainParser
  import MemSources
  import Paths

  /** A line the resolver copies as text: neither an include nor a pragma. */
  predicate Literal(d: Directive) {
    !d.Include? && !d.PragmaOnce?
  }

  /** `add_line` applied to each of `ls` in turn. */
  function WithLines(t: Tree, ls: seq<string>): Tree
    decreases |ls|
  {
    if ls == [] then t else WithLines(t.WithLine(ls[0]), ls[1..])
  }

  /** The text `add_line` appends for each of `ls`: the line, then a newline. */
  function Joined(ls: seq<string>): string
    decreases |ls|
  {
    if ls == [] then "" else ls[0] + "\n" + Joined(ls[1..])
  }

  /** Lines that `trim_end` leaves as they are. */
  predicate Trimmed(ls: seq<string>) {
    forall i :: 0 <= i < |ls| ==> TrimEnd(ls[i]) == ls[i]
  }

  /** Adding trimmed lines appends exactly their joined text, and keeps the
      children and the buffer invariant. */
  lemma {:induction false} WithLinesText(t: Tree, ls: seq<string>)
    requires WellFormed(t) && Trimmed(ls)
    ensures WellFormed(WithLines(t, ls))
    ensures WithLines(t, ls).text == t.text + Joined(ls)
    ensures WithLines(t, ls).inner == t.inner
    decreases |ls|
  {
    if ls != [] {
      WithLineWellFormed(t, ls[0]);
      assert Trimmed(ls[1..]) by {
        forall i | 0 <= i < |ls[1..]| ensures TrimEnd(ls[1..][i]) == ls[1..][i] {
          assert ls[1..][i] == ls[i + 1];
        }
      }
      WithLinesText(t.WithLine(ls[0]), ls[1..]);
      assert t.WithLine(ls[0]).text == t.text + ls[0] + "\n";
      assert t.text + ls[0] + "\n" + Joined(ls[1..]) == t.text + (ls[0] + "\n" + Joined(ls[1..]));
    }
  }

  /** A run of literal lines is copied line by line, and the resolver state
      is left as it was. */
  lemma {:induction false} LiteralLinesKept(env: Env, st: State, canon: Path, lines: seq<string>, i: nat, node: Tree)
    requires Closed(env.provider) && AtMostTwice(st.stack) && canon in st.cache
    requires i <= |lines| && WellFormed(node)
    requires forall j :: i <= j < |lines| ==> Literal(env.classify(lines[j]))
    ensures ParseSpec(env, st, canon, lines, i, node) == (Ok(Some(WithLines(node, lines[i..]))), st)
    decreases |lines| - i
  {
    if i < |lines| {
      WithLineWellFormed(node, lines[i]);
      assert ParseLineSpec(env, st, canon, lines[i], node.LinesCount()) == (Text(lines[i]), st);
      LiteralLinesKept(env, st, canon, lines, i + 1, node.WithLine(lines[i]));
      assert lines[i..][1..] == lines[i + 1..];
    }
  }

  const Main: Path := ["main.c"]
  const Header: Path := ["header.h"]
  const IncHeader := "#include <header.h>"
  const Once := "#pragma once"
  const HeaderBody := ["// Return code", "static const int RET_CODE = 0;"]
  const MainBody := ["// Main function", "int main() {", "    return RET_CODE;", "}"]
  const HeaderLines := [Once] + HeaderBody
  const MainLines := [IncHeader, IncHeader] + MainBody

  ghost predicate SingleHeaderEnv(env: Env) {
    && env.provider == MemSources.FilesProvider(map[Main := MainLines, Header := HeaderLines])
    && env.classify(IncHeader) == Include('<', Header, '>')
    && env.classify(Once) == PragmaOnce
    && (forall j :: 0 <= j < |MainBody| ==> Literal(env.classify(MainBody[j])))
    && (forall j :: 0 <= j < |HeaderBody| ==> Literal(env.classify(HeaderBody[j])))
  }

  lemma SingleHeaderReads(env: Env, cwd: Option<Path>)
    requires SingleHeaderEnv(env)
    requires cwd != Some([])
    ensures Closed(env.provider)
    ensures env.provider.read(Header, None) == Ok(Loaded(Header, HeaderLines))
    ensures env.provider.read(Main, cwd) == Ok(Loaded(Main, MainLines))
    ensures HeaderLines[1..] == HeaderBody && MainLines[2..] == MainBody
    ensures forall j :: 1 <= j < |HeaderLines| ==> Literal(env.classify(HeaderLines[j]))
    ensures forall j :: 2 <= j < |MainLines| ==> Literal(env.classify(MainLines[j]))
  {
    assert Main[0][0] != Header[0][0];
    if cwd.Some? {
      assert |Paths.Join(cwd.value, Main)| > 1;
    }
    forall j | 1 <= j < |HeaderLines| ensures Literal(env.classify(HeaderLines[j])) {
      assert HeaderLines[j] == HeaderBody[j - 1];
    }
    forall j | 2 <= j < |MainLines| ensures Literal(env.classify(MainLines[j])) {
      assert MainLines[j] == MainBody[j - 2];
    }
  }

  const HeaderTree := WithLines(Empty(Header).WithLine(""), HeaderBody)
  const MainHead := Empty(Main).WithChild(HeaderTree).WithLine("")
  const MainTree := WithLines(MainHead, MainBody)
  /** The expected output of the fixture: the first include's placeholder
      line, the header (its pragma line empty), the second include line
      (empty), and the root's own lines. */
  const Expected := "\n" + ("\n" + Joined(HeaderBody)) + ("\n" + Joined(MainBody))

  lemma BodiesTrimmed()
    ensures Trimmed(HeaderBody) && Trimmed(MainBody)
  {
    assert TrimEnd(HeaderBody[0]) == HeaderBody[0] && TrimEnd(HeaderBody[1]) == HeaderBody[1];
    assert TrimEnd(MainBody[0]) == MainBody[0] && TrimEnd(MainBody[1]) == MainBody[1];
    assert TrimEnd(MainBody[2]) == MainBody[2] && TrimEnd(MainBody[3]) == MainBody[3];
  }

  /** A file whose first line becomes an empty line, followed by `body`. */
  lemma BlankThenLines(name: Path, body: seq<string>)
    requires Trimmed(body)
    ensures var t := WithLines(Empty(name).WithLine(""), body);
            WellFormed(t) && t.inner == [] && t.text == "\n" + Joined(body)
  {
    WithLineWellFormed(Empty(name), "");
    assert TrimEnd("") == "";
    WithLinesText(Empty(name).WithLine(""), body);
  }

  /** The first two lines of such a file: the splice, then an empty line. */
  lemma ChildThenBlank(name: Path, child: Tree)
    requires WellFormed(child)
    ensures var head := Empty(name).WithChild(child).WithLine("");
            WellFormed(head) && head.inner == [Child(child, 1)] && head.text == "\n\n"
  {
    var e := Empty(name);
    WithChildWellFormed(e, child);
    var w := e.WithChild(child);
    assert TrimEnd("") == "";
    assert w.text == "\n" && w.inner == [Child(child, 1)];
    WithLineWellFormed(w, "");
  }

  /** A file whose first line splices `child` and whose second line becomes
      an empty line, followed by `body`. */
  lemma ChildBlankThenLines(name: Path, child: Tree, body: seq<string>)
    requires WellFormed(child) && Trimmed(body)
    ensures var head := Empty(name).WithChild(child).WithLine("");
            var t := WithLines(head, body);
            WellFormed(head) && WellFormed(t) && t.inner == [Child(child, 1)]
            && t.text == "\n" + ("\n" + Joined(body))
  {
    ChildThenBlank(name, child);
    var head := Empty(name).WithChild(child).WithLine("");
    WithLinesText(head, body);
    assert "\n\n" + Joined(body) == "\n" + ("\n" + Joined(body));
  }

  lemma HeaderTreeBuilt()
    ensures WellFormed(HeaderTree) && HeaderTree.inner == []
    ensures HeaderTree.text == "\n" + Joined(HeaderBody)
  {
    BodiesTrimmed();
    BlankThenLines(Header, HeaderBody);
  }

  lemma MainTreeBuilt()
    ensures WellFormed(MainHead) && WellFormed(MainTree)
    ensures MainTree.inner == [Child(HeaderTree, 1)]
    ensures MainTree.text == "\n" + ("\n" + Joined(MainBody))
  {
    BodiesTrimmed();
    HeaderTreeBuilt();
    ChildBlankThenLines(Main, HeaderTree, MainBody);
  }

  /** The header's own lines, on its first read: its pragma line becomes an
      empty line and the rest is copied. */
  lemma HeaderSteps(env: Env, pushed: State)
    requires SingleHeaderEnv(env) && Closed(env.provider) && AtMostTwice(pushed.stack)
    requires Header in pushed.cache && pushed.cache[Header] == 1
    ensures ParseSpec(env, pushed, Header, HeaderLines, 0, Empty(Header)) == (Ok(Some(HeaderTree)), pushed)
  {
    SingleHeaderReads(env, None);
    var head := Empty(Header).WithLine("");
    WithLineWellFormed(Empty(Header), "");
    assert ParseLineSpec(env, pushed, Header, Once, 0) == (Text(""), pushed);
    assert ParseSpec(env, pushed, Header, HeaderLines, 0, Empty(Header))
           == ParseSpec(env, pushed, Header, HeaderLines, 1, head);
    LiteralLinesKept(env, pushed, Header, HeaderLines, 1, head);
    HeaderTreeBuilt();
  }

  /** First include: the header is read once and kept. */
  lemma FirstInclude(env: Env)
    requires SingleHeaderEnv(env)
    ensures Closed(env.provider)
    ensures BuildTreeSpec(env, State(map[Main := 1], [Main]), Header, None)
            == (Ok(Some(HeaderTree)), State(map[Main := 1, Header := 1], [Main]))
  {
    SingleHeaderReads(env, None);
    PushKeepsAtMostTwice([], Main);
    PushKeepsAtMostTwice([Main], Header);
    var st := State(map[Main := 1], [Main]);
    var pushed := State(map[Main := 1, Header := 1], [Main, Header]);
    assert multiset(st.stack)[Header] == 0;
    assert State(Bumped(st.cache, Header), st.stack + [Header]) == pushed;
    HeaderSteps(env, pushed);
  }

  /** Second include: the header, now counted twice, is discarded. */
  lemma SecondInclude(env: Env)
    requires SingleHeaderEnv(env)
    ensures Closed(env.provider)
    ensures BuildTreeSpec(env, State(map[Main := 1, Header := 1], [Main]), Header, None)
            == (Ok(None), State(map[Main := 1, Header := 2], [Main]))
  {
    SingleHeaderReads(env, None);
    PushKeepsAtMostTwice([], Main);
    var st := State(map[Main := 1, Header := 1], [Main]);
    assert multiset(st.stack)[Header] == 0;
    PragmaOnceDiscardsRepeat(env, st, Header, None);
    assert Bumped(st.cache, Header) == map[Main := 1, Header := 2];
  }

  /** The root's first include line splices the header in. */
  lemma MainFirstLine(env: Env)
    requires SingleHeaderEnv(env)
    ensures Closed(env.provider)
    ensures ParseLineSpec(env, State(map[Main := 1], [Main]), Main, IncHeader, 0)
            == (Splice(HeaderTree), State(map[Main := 1, Header := 1], [Main]))
  {
    FirstInclude(env);
    PushKeepsAtMostTwice([], Main);
  }

  /** The root's second include line is an empty line. */
  lemma MainSecondLine(env: Env)
    requires SingleHeaderEnv(env)
    ensures Closed(env.provider)
    ensures ParseLineSpec(env, State(map[Main := 1, Header := 1], [Main]), Main, IncHeader, 1)
            == (Text(""), State(map[Main := 1, Header := 2], [Main]))
  {
    SecondInclude(env);
    PushKeepsAtMostTwice([], Main);
  }

  /** The root's lines, scanned with its first read counted. */
  lemma MainSteps(env: Env)
    requires SingleHeaderEnv(env)
    ensures Closed(env.provider)
    ensures ParseSpec(env, State(map[Main := 1], [Main]), Main, MainLines, 0, Empty(Main)).0 == Ok(Some(MainTree))
  {
    SingleHeaderReads(env, None);
    MainFirstLine(env);
    MainSecondLine(env);
    MainTreeBuilt();
    PushKeepsAtMostTwice([], Main);
    var pushed := State(map[Main := 1], [Main]);
    var mid := State(map[Main := 1, Header := 1], [Main]);
    var after := State(map[Main := 1, Header := 2], [Main]);
    var one := Empty(Main).WithChild(HeaderTree);
    WithChildWellFormed(Empty(Main), HeaderTree);
    assert ParseSpec(env, pushed, Main, MainLines, 0, Empty(Main)) == ParseSpec(env, mid, Main, MainLines, 1, one);
    assert ParseSpec(env, mid, Main, MainLines, 1, one) == ParseSpec(env, after, Main, MainLines, 2, one.WithLine(""));
    LiteralLinesKept(env, after, Main, MainLines, 2, one.WithLine(""));
  }

  /** The tree the root resolves to. */
  lemma MainResolved(env: Env, cwd: Option<Path>)
    requires SingleHeaderEnv(env)
    requires cwd != Some([])
    ensures Closed(env.provider)
    ensures BuildTreeSpec(env, State(map[], []), Main, cwd).0 == Ok(Some(MainTree))
  {
    SingleHeaderReads(env, cwd);
    MainSteps(env);
    PushKeepsAtMostTwice([], Main);
    var st := State(map[], []);
    assert State(Bumped(st.cache, Main), st.stack + [Main]) == State(map[Main := 1], [Main]);
  }

  /** A node with one leaf child recorded at position 1 collects to its
      first character, the child's text, then the rest of its own text. */
  lemma CollectOneLeafAtOne(t: Tree, c: Tree)
    requires t.inner == [Child(c, 1)] && c.inner == [] && |t.text| >= 1
    ensures Spliceable(t)
    ensures Collected(t) == t.text[..1] + c.text + t.text[1..]
  {
    assert Spliceable(c);
    assert Collected(c) == CollectFrom(c, 0, 0) == c.text[0..] == c.text;
    assert CollectFrom(t, 1, 1) == t.text[1..];
    assert CollectFrom(t, 0, 0) == t.text[0..1] + Collected(c) + CollectFrom(t, 1, 1);
  }

  lemma MainTreeCollected()
    ensures Spliceable(MainTree) && Collected(MainTree) == Expected
  {
    HeaderTreeBuilt();
    MainTreeBuilt();
    CollectOneLeafAtOne(MainTree, HeaderTree);
    assert MainTree.text[..1] == "\n" && MainTree.text[1..] == "\n" + Joined(MainBody);
  }

  /** tests.rs `single_header`: the header appears once, after an empty line
      for its first include, and its second include line is one empty line. */
  lemma SingleHeaderOnce(env: Env, cwd: Option<Path>)
    requires SingleHeaderEnv(env)
    requires cwd != Some([])
    ensures Closed(env.provider)
    ensures var b := BuildOutcome(env, Main, cwd);
            b.Built? && Spliceable(b.root) && Collected(b.root) == Expected
  {
    MainResolved(env, cwd);
    MainTreeCollected();
  }
}
