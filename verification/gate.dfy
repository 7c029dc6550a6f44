/** The conditional-inclusion gate stack of src/parse/gate.rs: a LIFO of
    gates with a cached flag that must equal the conjunction of the gates. */
module Gates {
  import opened Errors

  /** `Known(name, open)` is a condition on a flag whose value is known;
      `Unknown` is a condition on a flag that was not given. */
  datatype Gate = Known(name: string, open: bool) | Unknown {
    /** A Known gate is open exactly when its flag says so; an Unknown gate
        is always open. */
    predicate IsOpen() {
      match this
      case Known(_, value) => value
      case Unknown => true
    }
  }

  /** The conjunction of `is_open` over a stack of gates. */
  predicate AllOpen(gates: seq<Gate>) {
    forall i :: 0 <= i < |gates| ==> gates[i].IsOpen()
  }

  lemma AllOpenPush(gates: seq<Gate>, g: Gate)
    ensures AllOpen(gates + [g]) == (AllOpen(gates) && g.IsOpen())
  {
    assert forall i :: 0 <= i < |gates| ==> (gates + [g])[i] == gates[i];
    assert (gates + [g])[|gates|] == g;
  }

  /** Pushing an Unknown gate never changes whether the stack is open, and
      pushing a closed gate always closes it. */
  lemma PushUnknownKeepsOpen(gates: seq<Gate>)
    ensures AllOpen(gates + [Unknown]) == AllOpen(gates)
    ensures forall name :: !AllOpen(gates + [Known(name, false)])
  {
    AllOpenPush(gates, Unknown);
    forall name ensures !AllOpen(gates + [Known(name, false)]) {
      AllOpenPush(gates, Known(name, false));
    }
  }

  class GateStack {
    var stack: seq<Gate>
    var state: bool

    ghost predicate Valid()
      reads this
    {
      state == AllOpen(stack)
    }

    /** `GateStack::new`: empty and open. */
    constructor ()
      ensures Valid() && stack == [] && state
    {
      stack := [];
      state := true;
    }

    /** `compute_state`: recompute the cached flag from the gates. */
    method ComputeState()
      modifies this
      ensures Valid() && stack == old(stack)
    {
      var all := true;
      var i := 0;
      while i < |stack|
        invariant 0 <= i <= |stack| && stack == old(stack)
        invariant all == AllOpen(stack[..i])
      {
        assert stack[..i + 1] == stack[..i] + [stack[i]];
        AllOpenPush(stack[..i], stack[i]);
        all := all && stack[i].IsOpen();
        i := i + 1;
      }
      assert stack[..i] == stack;
      state := all;
    }

    /** `push`: the gate goes on top, the gates below stay, and the stack is
        open afterwards exactly when it was open before and the gate is open. */
    method Push(gate: Gate)
      requires Valid()
      modifies this
      ensures Valid()
      ensures stack == old(stack) + [gate]
      ensures state == (old(state) && gate.IsOpen())
    {
      AllOpenPush(stack, gate);
      state := state && gate.IsOpen();
      stack := stack + [gate];
    }

    /** `pop`: removes and returns the most recently pushed gate; on an empty
        stack returns None and changes nothing. */
    method Pop() returns (gate: Option<Gate>)
      requires Valid()
      modifies this
      ensures Valid()
      ensures old(stack) == [] ==> gate == None && stack == old(stack) && state == old(state)
      ensures old(stack) != [] ==>
                gate == Some(old(stack)[|old(stack)| - 1]) && stack == old(stack)[..|old(stack)| - 1]
    {
      if stack == [] {
        return None;
      }
      var top := stack[|stack| - 1];
      var below := stack[..|stack| - 1];
      assert stack == below + [top];
      AllOpenPush(below, top);
      stack := below;
      if !top.IsOpen() {
        ComputeState();
      }
      gate := Some(top);
    }

    /** `is_open`: the cached flag, which is the conjunction of all gates. */
    function IsOpen(): (r: bool)
      reads this
      requires Valid()
      ensures r == AllOpen(stack)
    {
      state
    }
  }

  /** Pushing a gate and popping it again gives that gate back and leaves
      the stack, and whether it is open, as they were. */
  method PushThenPop(gs: GateStack, g: Gate) returns (popped: Option<Gate>)
    requires gs.Valid()
    modifies gs
    ensures gs.Valid() && popped == Some(g)
    ensures gs.stack == old(gs.stack) && gs.IsOpen() == old(gs.IsOpen())
  {
    gs.Push(g);
    popped := gs.Pop();
    assert gs.stack == (old(gs.stack) + [g])[..|old(gs.stack)|];
  }
}
