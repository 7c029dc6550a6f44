/** The state shared by both generations of the include resolver
    (src/parser.rs and src/builder.rs; src/parse/context.rs): the occurrence
    cache and the file stack, with the facts that bound the recursion. */
module Resolution {
  import opened Errors
  import opened Nodes

  /** The occurrence cache: canonical path to `CacheEntry::occured`. */
  type Counts = map<Path, nat>

  /** What the resolver changes: the occurrence cache and the file stack. */
  datatype State = State(cache: Counts, stack: seq<Path>)

  /** What one scanned line contributes to the node. */
  datatype LineOutcome = Text(line: string) | Splice(child: Tree) | Break | Failed(error: Error)

  /** A successful read of `canon`: a new path starts at 1, a known one is
      incremented (`CacheEntry::new` and `occured += 1`). */
  function Bumped(cache: Counts, canon: Path): Counts {
    if canon in cache then cache[canon := cache[canon] + 1] else cache[canon := 1]
  }

  /** A read counts its path and nothing else: a path read for the first
      time has been seen once (`CacheEntry::new`), a known one once more. */
  lemma BumpedCounts(cache: Counts, canon: Path)
    ensures Bumped(cache, canon).Keys == cache.Keys + {canon}
    ensures canon !in cache ==> Bumped(cache, canon)[canon] == 1
    ensures canon in cache ==> Bumped(cache, canon)[canon] == cache[canon] + 1
    ensures forall p :: p in cache && p != canon ==> Bumped(cache, canon)[p] == cache[p]
  {
  }

  /** No path appears more than twice on the file stack. */
  ghost predicate AtMostTwice(stack: seq<Path>) {
    forall p :: multiset(stack)[p] <= 2
  }

  /** What a call may do to the state: the file stack only grows on top,
      the cache only gains paths, and no count goes down. */
  ghost predicate Grows(before: State, after: State) {
    && before.stack <= after.stack
    && before.cache.Keys <= after.cache.Keys
    && (forall p :: p in before.cache ==> before.cache[p] <= after.cache[p])
  }

  /** Termination measure: each canonical path of the provider may still be
      entered as often as the file stack leaves room for it. */
  function Budget(universe: set<Path>, stack: seq<Path>): multiset<Path> {
    multiset(universe) + multiset(universe) - multiset(stack)
  }

  lemma PushShrinksBudget(universe: set<Path>, stack: seq<Path>, p: Path)
    requires p in universe && multiset(stack)[p] < 2
    ensures Budget(universe, stack + [p]) < Budget(universe, stack)
  {
    var before, after := Budget(universe, stack), Budget(universe, stack + [p]);
    assert multiset(stack + [p]) == multiset(stack) + multiset{p};
    assert after[p] + 1 == before[p];
    assert after <= before;
  }

  lemma BumpedGrows(st: State, canon: Path)
    ensures canon in Bumped(st.cache, canon)
    ensures Grows(st, State(Bumped(st.cache, canon), st.stack))
  {
  }

  lemma PushKeepsAtMostTwice(stack: seq<Path>, canon: Path)
    requires AtMostTwice(stack) && multiset(stack)[canon] < 2
    ensures AtMostTwice(stack + [canon])
    ensures multiset(stack + [canon])[canon] == multiset(stack)[canon] + 1
  {
    assert multiset(stack + [canon]) == multiset(stack) + multiset{canon};
  }

  lemma GrowsTrans(a: State, b: State, c: State)
    requires Grows(a, b) && Grows(b, c)
    ensures Grows(a, c)
  {
  }

}
