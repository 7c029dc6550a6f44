/** src/source/container.rs: a vector of sources is a source that tries its
    members in order. A NotFound answer falls through to the next member;
    any other answer, success or error, is final. The `&S`, `Box` and `Rc`
    impls delegate unchanged. */
module SourceContainer {
  import opened Errors
  import opened Providers

  /** The answer of the chain. */
  function ChainRead(sources: seq<Provider>, path: Path, dir: Option<Path>): Result<Loaded>
    decreases |sources|
  {
    if sources == [] then Err(Fail(NotFound))
    else
      var r := sources[0].read(path, dir);
      if r.Err? && r.error.kind == NotFound then ChainRead(sources[1..], path, dir) else r
  }

  predicate NotFoundAt(sources: seq<Provider>, k: nat, path: Path, dir: Option<Path>)
    requires k < |sources|
  {
    sources[k].read(path, dir).Err? && sources[k].read(path, dir).error.kind == NotFound
  }

  /** The position of the first member whose answer is not NotFound, or the
      length of the chain when every member says NotFound. */
  function Decisive(sources: seq<Provider>, path: Path, dir: Option<Path>): (k: nat)
    ensures k <= |sources|
    ensures forall j :: 0 <= j < k ==> NotFoundAt(sources, j, path, dir)
    ensures k < |sources| ==> !NotFoundAt(sources, k, path, dir)
    decreases |sources|
  {
    if sources == [] then 0
    else if NotFoundAt(sources, 0, path, dir) then
      var k := Decisive(sources[1..], path, dir);
      assert forall j :: 1 <= j < k + 1 ==> NotFoundAt(sources[1..], j - 1, path, dir) == NotFoundAt(sources, j, path, dir);
      k + 1
    else 0
  }

  /** The chain answers exactly what its first non-NotFound member answers,
      every member before it said NotFound, and if there is no such member
      (an empty chain included) the answer is a fresh NotFound. */
  lemma {:induction false} ChainReadIsDecisive(sources: seq<Provider>, path: Path, dir: Option<Path>)
    ensures var k := Decisive(sources, path, dir);
            ChainRead(sources, path, dir) == if k < |sources| then sources[k].read(path, dir) else Err(Fail(NotFound))
    decreases |sources|
  {
    if sources != [] && NotFoundAt(sources, 0, path, dir) {
      ChainReadIsDecisive(sources[1..], path, dir);
    }
  }

  /** A success or a non-NotFound error always comes from some member, after
      all members before it said NotFound; a NotFound from the chain means
      every member said NotFound. */
  lemma ChainReadOrigin(sources: seq<Provider>, path: Path, dir: Option<Path>)
    ensures var r := ChainRead(sources, path, dir);
            !(r.Err? && r.error.kind == NotFound) ==>
              exists k :: 0 <= k < |sources| && r == sources[k].read(path, dir)
                && forall j :: 0 <= j < k ==> NotFoundAt(sources, j, path, dir)
    ensures var r := ChainRead(sources, path, dir);
            r.Err? && r.error.kind == NotFound ==>
              r == Err(Fail(NotFound)) && forall j :: 0 <= j < |sources| ==> NotFoundAt(sources, j, path, dir)
  {
    ChainReadIsDecisive(sources, path, dir);
    var k := Decisive(sources, path, dir);
    if k < |sources| {
      assert !NotFoundAt(sources, k, path, dir);
    }
  }

  /** The loop of `Vec<S>::read`: a result slot filled by the first success
      or the first error that is not NotFound. */
  method ReadVec(sources: seq<Provider>, path: Path, dir: Option<Path>) returns (r: Result<Loaded>)
    ensures r == ChainRead(sources, path, dir)
  {
    var res: Option<Result<Loaded>> := None;
    var k := 0;
    while k < |sources|
      invariant 0 <= k <= |sources|
      invariant res.None? ==> ChainRead(sources[k..], path, dir) == ChainRead(sources, path, dir)
      invariant res.Some? ==> res.value == ChainRead(sources, path, dir)
    {
      var x := sources[k].read(path, dir);
      assert sources[k..][0] == sources[k] && sources[k..][1..] == sources[k + 1..];
      if x.Ok? {
        res := Some(x);
        break;
      } else if x.error.kind == NotFound {
        k := k + 1;
      } else {
        res := Some(x);
        break;
      }
    }
    match res {
      case Some(x) => r := x;
      case None => r := Err(Fail(NotFound));
    }
  }

  function UniverseOf(sources: seq<Provider>): set<Path>
    decreases |sources|
  {
    if sources == [] then {} else sources[0].universe + UniverseOf(sources[1..])
  }

  /** The chain as a provider in its own right (`Box::new(self.sources)`):
      it answers what `ChainRead` answers and it is closed over the union of
      its members' paths when every member is closed. */
  function Chain(sources: seq<Provider>): (p: Provider)
    ensures forall path, dir :: p.read(path, dir) == ChainRead(sources, path, dir)
    ensures (forall k :: 0 <= k < |sources| ==> Closed(sources[k])) ==> Closed(p)
  {
    ChainClosed(sources);
    Provider((path, dir) => ChainRead(sources, path, dir), UniverseOf(sources))
  }

  lemma {:induction false} ChainClosed(sources: seq<Provider>)
    ensures (forall k :: 0 <= k < |sources| ==> Closed(sources[k])) ==>
              forall path, dir :: ChainRead(sources, path, dir).Ok? ==>
                ChainRead(sources, path, dir).value.canon in UniverseOf(sources)
    decreases |sources|
  {
    if sources != [] && forall k :: 0 <= k < |sources| ==> Closed(sources[k]) {
      assert forall k :: 0 <= k < |sources[1..]| ==> sources[1..][k] == sources[k + 1];
      ChainClosed(sources[1..]);
      assert Closed(sources[0]);
    }
  }

  /** `impl Source for &S`, `Box<dyn Source>` and `Rc<S>`: the wrapper reads
      exactly what the wrapped source reads. */
  function Delegate(source: Provider): (p: Provider)
    ensures forall path, dir :: p.read(path, dir) == source.read(path, dir)
    ensures p.universe == source.universe
  {
    Provider((path, dir) => source.read(path, dir), source.universe)
  }
}
