/** The output tree of src/node.rs: each file contributes an append-only text
    buffer, the start offset of each of its lines, and the children spliced
    into it. A finished node is moved into its parent, so children are held
    as values (`Tree`); the node being filled is the object `Node`. */
module Nodes {
  import opened Errors
  import opened Lines

  datatype Tree = Tree(name: Path, inner: seq<Child>, text: string, index: seq<nat>) {

    function LinesCount(): nat {
      |index|
    }

    /** `add_line`: record where the line starts, then append it trimmed,
        with a newline. */
    function WithLine(line: string): Tree {
      Tree(name, inner, text + TrimEnd(line) + "\n", index + [|text|])
    }

    /** `add_child`: an empty placeholder line, and the child recorded at the
        line count reached after it. */
    function WithChild(child: Tree): Tree {
      var t := WithLine("");
      Tree(name, inner + [Child(child, t.LinesCount())], t.text, t.index)
    }

    /** The splice the tests evidently expect: the child recorded at the text
        offset just after its placeholder line. */
    function WithChildAtLineEnd(child: Tree): Tree {
      var t := WithLine("");
      Tree(name, inner + [Child(child, |t.text|)], t.text, t.index)
    }
  }

  datatype Child = Child(node: Tree, pos: nat)

  function Empty(name: Path): Tree {
    Tree(name, [], "", [])
  }

  /** The buffer invariant of one node: line starts strictly increase and lie
      inside the text, there are no more lines than characters, a non-empty
      text ends in a newline, and recorded child positions strictly increase
      and never exceed the line count. */
  ghost predicate LocalValid(t: Tree) {
    && (forall i, j :: 0 <= i < j < |t.index| ==> t.index[i] < t.index[j])
    && (forall i :: 0 <= i < |t.index| ==> t.index[i] < |t.text|)
    && |t.index| <= |t.text|
    && (t.text != [] ==> t.text[|t.text| - 1] == '\n')
    && (forall i, j :: 0 <= i < j < |t.inner| ==> t.inner[i].pos < t.inner[j].pos)
    && (forall i :: 0 <= i < |t.inner| ==> t.inner[i].pos <= |t.index|)
  }

  ghost predicate WellFormed(t: Tree)
    decreases t
  {
    LocalValid(t) && forall k :: 0 <= k < |t.inner| ==> WellFormed(t.inner[k].node)
  }

  /** What `collect` needs: child positions never decrease and never exceed
      the text length, in every node of the tree. */
  predicate Spliceable(t: Tree)
    decreases t
  {
    && (forall i, j :: 0 <= i < j < |t.inner| ==> t.inner[i].pos <= t.inner[j].pos)
    && (forall i :: 0 <= i < |t.inner| ==> t.inner[i].pos <= |t.text|)
    && forall k :: 0 <= k < |t.inner| ==> Spliceable(t.inner[k].node)
  }

  /** Every slice `collect` takes is in bounds: a recorded position is a line
      count, and a node never has more lines than characters. */
  lemma {:induction false} WellFormedIsSpliceable(t: Tree)
    requires WellFormed(t)
    ensures Spliceable(t)
    decreases t
  {
    forall k | 0 <= k < |t.inner|
      ensures Spliceable(t.inner[k].node)
    {
      WellFormedIsSpliceable(t.inner[k].node);
    }
  }

  /** `collect`: the text slices between consecutive recorded positions,
      interleaved with each child's own collected text. */
  function Collected(t: Tree): string
    requires Spliceable(t)
    decreases t, 1, 0
  {
    CollectFrom(t, 0, 0)
  }

  function CollectFrom(t: Tree, k: nat, ppos: nat): string
    requires Spliceable(t) && k <= |t.inner| && ppos <= |t.text|
    requires forall j :: k <= j < |t.inner| ==> ppos <= t.inner[j].pos
    decreases t, 0, |t.inner| - k
  {
    if k == |t.inner| then t.text[ppos..]
    else
      t.text[ppos..t.inner[k].pos] + Collected(t.inner[k].node)
      + CollectFrom(t, k + 1, t.inner[k].pos)
  }

  /** `add_line` keeps the buffer invariant and adds exactly one line, whose
      start is the old text length. */
  lemma WithLineWellFormed(t: Tree, line: string)
    requires WellFormed(t)
    ensures WellFormed(t.WithLine(line))
    ensures t.WithLine(line).LinesCount() == t.LinesCount() + 1
    ensures t.WithLine(line).index[t.LinesCount()] == |t.text|
    ensures t.WithLine(line).text == t.text + TrimEnd(line) + "\n"
  {
    var u := t.WithLine(line);
    assert u.inner == t.inner;
    assert u.text[|u.text| - 1] == '\n';
  }

  /** `add_child` keeps the buffer invariant, adds exactly one (empty) line,
      and records the child at the new line count, above every earlier
      position. */
  lemma WithChildWellFormed(t: Tree, child: Tree)
    requires WellFormed(t) && WellFormed(child)
    ensures WellFormed(t.WithChild(child))
    ensures t.WithChild(child).LinesCount() == t.LinesCount() + 1
    ensures t.WithChild(child).text == t.text + "\n"
    ensures t.WithChild(child).inner == t.inner + [Child(child, t.LinesCount() + 1)]
  {
    WithLineWellFormed(t, "");
    var u := t.WithChild(child);
    assert TrimEnd("") == "";
    forall k | 0 <= k < |u.inner|
      ensures WellFormed(u.inner[k].node)
    {
      if k < |t.inner| {
        assert u.inner[k] == t.inner[k];
      }
    }
  }

  /** Without children, `collect` returns the text unchanged. */
  lemma CollectLeaf(t: Tree)
    requires Spliceable(t) && t.inner == []
    ensures Collected(t) == t.text
  {
  }

  /** Total length of the collected children from the k-th on. */
  function ChildrenLength(t: Tree, k: nat): nat
    requires Spliceable(t) && k <= |t.inner|
    decreases |t.inner| - k
  {
    if k == |t.inner| then 0 else |Collected(t.inner[k].node)| + ChildrenLength(t, k + 1)
  }

  lemma {:induction false} CollectFromLength(t: Tree, k: nat, ppos: nat)
    requires Spliceable(t) && k <= |t.inner| && ppos <= |t.text|
    requires forall j :: k <= j < |t.inner| ==> ppos <= t.inner[j].pos
    ensures |CollectFrom(t, k, ppos)| == |t.text| - ppos + ChildrenLength(t, k)
    decreases |t.inner| - k
  {
    if k < |t.inner| {
      CollectFromLength(t, k + 1, t.inner[k].pos);
    }
  }

  /** `collect` neither loses nor duplicates text: its length is the node's
      own text plus everything its children collect. */
  lemma CollectLength(t: Tree)
    requires Spliceable(t)
    ensures |Collected(t)| == |t.text| + ChildrenLength(t, 0)
  {
    CollectFromLength(t, 0, 0);
  }

  lemma {:induction false} CollectFromAtLineEnd(t: Tree, child: Tree, k: nat, ppos: nat)
    requires Spliceable(t) && Spliceable(child) && k <= |t.inner| && ppos <= |t.text|
    requires forall j :: k <= j < |t.inner| ==> ppos <= t.inner[j].pos
    ensures Spliceable(t.WithChildAtLineEnd(child))
    ensures CollectFrom(t.WithChildAtLineEnd(child), k, ppos) == CollectFrom(t, k, ppos) + "\n" + Collected(child)
    decreases |t.inner| - k
  {
    var u := t.WithChildAtLineEnd(child);
    assert TrimEnd("") == "";
    assert u.text == t.text + "\n";
    assert forall j :: 0 <= j < |t.inner| ==> u.inner[j] == t.inner[j];
    assert u.inner[|t.inner|] == Child(child, |t.text| + 1);
    if k < |t.inner| {
      CollectFromAtLineEnd(t, child, k + 1, t.inner[k].pos);
      assert u.text[ppos..t.inner[k].pos] == t.text[ppos..t.inner[k].pos];
    } else {
      assert u.text[ppos..|t.text| + 1] == t.text[ppos..] + "\n";
    }
  }

  /** With the splice recorded at the end of the placeholder line, adding a
      child appends exactly a newline and the child's collected text. */
  lemma CollectWithChildAtLineEnd(t: Tree, child: Tree)
    requires Spliceable(t) && Spliceable(child)
    ensures Spliceable(t.WithChildAtLineEnd(child))
    ensures Collected(t.WithChildAtLineEnd(child)) == Collected(t) + "\n" + Collected(child)
  {
    CollectFromAtLineEnd(t, child, 0, 0);
  }

  /** As written, the recorded line count is read as a character offset: in
      the fixture of the `line_numbers` test, the child of `main.c` is
      spliced in front of the line "2" instead of after the placeholder. */
  lemma SpliceByLineCountSplitsText()
    ensures var main := Empty(["main.c"]).WithLine("0").WithLine("1").WithLine("2");
            var h := Empty(["h01.h"]).WithLine("4");
            && Spliceable(main.WithChild(h))
            && Collected(main.WithChild(h)) == "0\n1\n4\n2\n\n"
            && Collected(main.WithChild(h)) != Collected(main) + "\n" + Collected(h)
  {
    FixtureValues();
    FixtureCollected();
    assert (Collected(FixtureMain) + "\n" + Collected(FixtureHeader))[4] == '2';
  }

  const FixtureHeader := Tree(["h01.h"], [], "4\n", [0])
  const FixtureMain := Tree(["main.c"], [], "0\n1\n2\n", [0, 2, 4])
  const FixtureSpliced := Tree(["main.c"], [Child(FixtureHeader, 4)], "0\n1\n2\n\n", [0, 2, 4, 6])

  lemma FixtureValues()
    ensures Empty(["main.c"]).WithLine("0").WithLine("1").WithLine("2") == FixtureMain
    ensures Empty(["h01.h"]).WithLine("4") == FixtureHeader
    ensures FixtureMain.WithChild(FixtureHeader) == FixtureSpliced
  {
    assert TrimEnd("0") == "0" && TrimEnd("1") == "1" && TrimEnd("2") == "2";
    assert TrimEnd("4") == "4" && TrimEnd("") == "";
  }

  lemma FixtureCollected()
    ensures Spliceable(FixtureHeader) && Spliceable(FixtureMain) && Spliceable(FixtureSpliced)
    ensures Collected(FixtureHeader) == "4\n" && Collected(FixtureMain) == "0\n1\n2\n"
    ensures Collected(FixtureSpliced) == "0\n1\n4\n2\n\n"
  {
    assert Spliceable(FixtureHeader) && Collected(FixtureHeader) == "4\n";
    assert Spliceable(FixtureSpliced);
    assert CollectFrom(FixtureSpliced, 1, 4) == "2\n\n";
  }

  /** The node being filled by a file scanner. */
  class Node {
    var name: Path
    var inner: seq<Child>
    var text: string
    var index: seq<nat>

    function Value(): Tree
      reads this
    {
      Tree(name, inner, text, index)
    }

    ghost predicate Valid()
      reads this
    {
      WellFormed(Value())
    }

    /** `Node::new`: no text, no lines, no children, the given name. */
    constructor (name: Path)
      ensures Valid() && Value() == Empty(name)
    {
      this.name := name;
      inner := [];
      text := "";
      index := [];
    }

    function Name(): Path
      reads this
    {
      name
    }

    function LinesCount(): nat
      reads this
    {
      |index|
    }

    method AddLine(line: string)
      requires Valid()
      modifies this
      ensures Valid() && Value() == old(Value()).WithLine(line)
      ensures LinesCount() == old(LinesCount()) + 1
    {
      WithLineWellFormed(Value(), line);
      index := index + [|text|];
      text := text + TrimEnd(line) + "\n";
    }

    method AddChild(child: Tree)
      requires Valid() && WellFormed(child)
      modifies this
      ensures Valid() && Value() == old(Value()).WithChild(child)
      ensures LinesCount() == old(LinesCount()) + 1
    {
      WithChildWellFormed(Value(), child);
      AddLine("");
      inner := inner + [Child(child, |index|)];
    }

    /** `collect` on this node. */
    method Collect() returns (s: string)
      requires Valid()
      ensures WellFormed(Value()) && Spliceable(Value()) && s == Collected(Value())
    {
      WellFormedIsSpliceable(Value());
      s := CollectTree(Value());
    }
  }

  /** The loop of `collect`: an accumulator and the previous splice position. */
  method CollectTree(t: Tree) returns (s: string)
    requires Spliceable(t)
    ensures s == Collected(t)
    decreases t
  {
    var accum := "";
    var ppos: nat := 0;
    var k := 0;
    while k < |t.inner|
      invariant 0 <= k <= |t.inner| && ppos <= |t.text|
      invariant forall j :: k <= j < |t.inner| ==> ppos <= t.inner[j].pos
      invariant accum + CollectFrom(t, k, ppos) == Collected(t)
    {
      var sub := CollectTree(t.inner[k].node);
      accum := accum + t.text[ppos..t.inner[k].pos] + sub;
      ppos := t.inner[k].pos;
      k := k + 1;
    }
    s := accum + t.text[ppos..];
  }
}
