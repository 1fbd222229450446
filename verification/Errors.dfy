/** An exception nobody rescues climbs out of nested schedules one fiber at a time and is what the
    root program's call returns. */
module Errors {
  import opened Scripts
  import opened Machine
  import opened Control
  import opened WaitChains
  import opened Refinement

  function Depth(fs: seq<Fiber>, f: nat): nat {
    if f < |fs| && fs[f].parent.Some? && fs[f].parent.value < f then 1 + Depth(fs, fs[f].parent.value) else 1
  }

  /** Neither `f` nor any fiber waiting for it has an open rescue. */
  predicate NoHandler(fs: seq<Fiber>, f: nat) {
    f < |fs| ==>
      && Unwind(fs[f].cont).None?
      && (fs[f].parent.Some? && fs[f].parent.value < f ==> NoHandler(fs, fs[f].parent.value))
  }

  lemma {:induction false} AncestorsUnchanged(fs: seq<Fiber>, gs: seq<Fiber>, f: nat)
    requires f < |fs| && f < |gs|
    requires forall g | 0 <= g <= f :: gs[g].cont == fs[g].cont && gs[g].parent == fs[g].parent
    ensures Depth(gs, f) == Depth(fs, f) && NoHandler(gs, f) == NoHandler(fs, f)
  {
    if fs[f].parent.Some? && fs[f].parent.value < f {
      AncestorsUnchanged(fs, gs, fs[f].parent.value);
    }
  }

  function Steps(n: nat): seq<Action> {
    if n == 0 then [] else [Step] + Steps(n - 1)
  }

  /** One fiber up: the parent of a nested fiber has the exception now, and is one less deep. */
  lemma ErrorClimbs(s: State)
    requires Controlled(s) && Chained(s) && Sequential(s) && s.current != ROOT && s.raised.Some?
    requires NoHandler(s.fibers, s.current) && s.fibers[s.current].parent.Some?
    ensures var f, next := s.current, EndBody(s, Err(s.raised.value));
      && Controlled(next) && Chained(next) && Sequential(next)
      && next.current == s.fibers[f].parent.value && next.current != ROOT && next.raised == s.raised
      && next.fibers[next.current].tree == s.fibers[f].tree
      && NoHandler(next.fibers, next.current) && Depth(s.fibers, f) == 1 + Depth(next.fibers, next.current)
  {
    var f, e := s.current, s.raised.value;
    assert WellFormed(s);
    ErrorStep(s);
    StepControlled(s);
    hide Advance;
    NestedBodyReturns(s, Err(e));
    EndBodyChained(s, Err(e));
    EndBodySequential(s, Err(e));
    ChildOf(s.fibers, f);
    var next := EndBody(s, Err(e));
    hide EndBody, Controlled, Chained, Sequential, WithLeaf;
    hide FiberLinked;
    AncestorsUnchanged(s.fibers, next.fibers, s.fibers[f].parent.value);
  }

  lemma StepsRun(s: State, n: nat, next: State, r: State)
    requires WellFormed(s) && Enabled(s, Step) && Next(s, Step) == next && WellFormed(next)
    requires n > 0 && Runs(next, Steps(n - 1), r)
    ensures Runs(s, Steps(n), r)
  {
    hide Next, Enabled, WellFormed;
    assert Steps(n)[0] == Step && Steps(n)[1..] == Steps(n - 1);
  }

  /** At depth n, n steps later the exception has passed every parent in turn and is out: the tree has
      ended with it and the root call in progress, `run` or Fiber.schedule, returns it. */
  lemma {:induction false} UnrescuedErrorReachesRoot(s: State) returns (r: State)
    requires Controlled(s) && Chained(s) && Sequential(s) && s.current != ROOT && s.raised.Some?
    requires NoHandler(s.fibers, s.current)
    ensures Runs(s, Steps(Depth(s.fibers, s.current)), r)
    ensures r.current == ROOT && r.rootPc == Idle && r.ret == Some(Err(s.raised.value))
    ensures var t := s.fibers[s.current].tree; t in r.trees && r.trees[t].verdict == Some(Err(s.raised.value))
    decreases Depth(s.fibers, s.current)
  {
    var n, next := Depth(s.fibers, s.current), EndBody(s, Err(s.raised.value));
    assert WellFormed(s);
    ErrorStep(s);
    hide EndBody, Controlled, Chained, Sequential, Next, Enabled, Advance;
    if s.fibers[s.current].parent.None? {
      TopLevelErrorReturns(s);
      r := next;
    } else {
      ErrorClimbs(s);
      r := UnrescuedErrorReachesRoot(next);
    }
    hide NoHandler, Depth, WellFormed;
    StepsRun(s, n, next, r);
  }

  lemma ErrorStep(s: State)
    requires WellFormed(s) && s.current != ROOT && s.raised.Some? && Unwind(s.fibers[s.current].cont).None?
    ensures Advance(s) == EndBody(s, Err(s.raised.value)) && Enabled(s, Step) && Next(s, Step) == Advance(s)
  {
    hide EndBody, Continue, SpawnAndTransfer, FiberImpl, BlockCurrent, UnblockFiber;
  }

  lemma TopLevelErrorReturns(s: State)
    requires Controlled(s) && Chained(s) && Sequential(s) && s.current != ROOT && s.raised.Some?
    requires s.fibers[s.current].parent.None?
    ensures var r, t := EndBody(s, Err(s.raised.value)), s.fibers[s.current].tree;
      r.current == ROOT && r.rootPc == Idle && r.ret == Some(Err(s.raised.value))
      && t in r.trees && r.trees[t].verdict == Some(Err(s.raised.value))
  {
    assert FiberOk(s.fibers, s.trees, s.current);
    hide Tracks, Means, Links, Owners, OneExecutes, Partitioned, TimersCounted, TreesOk, FibersOk;
  }

  /** The order promised for a nested schedule with blocking calls: once the tree of this script has
      ended without an error, it has shown 1, 3, 4, 6, 5, whatever else was running. */
  function NestedScript(): seq<Op> {
    [Emit(1), Await, Emit(3), Schedule([Emit(4), Await, Emit(6)]), Emit(5)]
  }

  lemma DenoteFirst(op: Op, rest: seq<Op>, ins: seq<Outcome>)
    ensures var first := DenoteOp(op, ins);
      Denote([op] + rest, ins) == if first.end.Done? then Prepend(first.events, Denote(rest, first.rest)) else first
  {
    assert ([op] + rest)[1..] == rest;
  }

  lemma BodyMeaning(ins: seq<Outcome>)
    ensures var d := Denote([Emit(4), Await, Emit(6)], ins);
      d.end == Done ==> |ins| > 0 && ins[0].Ok? && d.events == [Out(4), In(ins[0]), Out(6)] && d.rest == ins[1..]
  {
    DenoteFirst(Emit(4), [Await, Emit(6)], ins);
    DenoteFirst(Await, [Emit(6)], ins);
    if ins != [] {
      DenoteFirst(Emit(6), [], ins[1..]);
      NothingMeans(ins[1..]);
    }
    assert [Emit(4)] + [Await, Emit(6)] == [Emit(4), Await, Emit(6)];
    assert [Await] + [Emit(6)] == [Await, Emit(6)];
    assert [Emit(6)] + [] == [Emit(6)];
    hide Denote;
  }

  lemma NestedScriptMeaning(ins: seq<Outcome>)
    requires Denote(NestedScript(), ins).end == Done
    ensures Outputs(Denote(NestedScript(), ins).events) == [1, 3, 4, 6, 5]
  {
    var body := [Emit(4), Await, Emit(6)];
    var s5, s4, s3, s2 := [Emit(5)], [Schedule(body), Emit(5)], [Emit(3), Schedule(body), Emit(5)], [Await, Emit(3), Schedule(body), Emit(5)];
    assert NestedScript() == [Emit(1)] + s2 && s2 == [Await] + s3 && s3 == [Emit(3)] + s4 && s4 == [Schedule(body)] + s5;
    assert s5 == [Emit(5)] + [];
    hide Denote, Outputs;
    DenoteFirst(Emit(1), s2, ins);
    DenoteFirst(Await, s3, ins);
    assert ins != [] && ins[0].Ok?;
    var later := ins[1..];
    DenoteFirst(Emit(3), s4, later);
    DenoteFirst(Schedule(body), s5, later);
    assert DenoteOp(Schedule(body), later) == Denote(body, later);
    BodyMeaning(later);
    var last := Denote(body, later).rest;
    DenoteFirst(Emit(5), [], last);
    NothingMeans(last);
    var log := Denote(NestedScript(), ins).events;
    assert log == [Out(1), In(ins[0]), Out(3), Out(4), In(later[0]), Out(6), Out(5)];
    OutputsOf(log, ins[0], later[0]);
  }

  lemma NothingMeans(ins: seq<Outcome>)
    ensures Denote([], ins) == Report([], ins, Done)
  {
  }

  lemma OutputsOf(log: seq<Event>, a: Outcome, b: Outcome)
    requires log == [Out(1), In(a), Out(3), Out(4), In(b), Out(6), Out(5)]
    ensures Outputs(log) == [1, 3, 4, 6, 5]
  {
    var l1, l2, l3, l4, l5, l6 := log[1..], log[2..], log[3..], log[4..], log[5..], log[6..];
    assert l1[1..] == l2 && l2[1..] == l3 && l3[1..] == l4 && l4[1..] == l5 && l5[1..] == l6 && l6[1..] == [];
    assert Outputs(l6) == [5];
    assert Outputs(l5) == [6, 5];
    assert Outputs(l4) == [6, 5];
    assert Outputs(l3) == [4, 6, 5];
    assert Outputs(l2) == [3, 4, 6, 5];
    assert Outputs(l1) == [3, 4, 6, 5];
  }

  lemma NestedOrder(s: State, t: nat)
    requires Reachable(s) && s.timers == 0 && t in s.trees
    requires s.trees[t].script == NestedScript() && s.trees[t].verdict == Some(Ok(Nil))
    ensures Outputs(s.trees[t].log) == [1, 3, 4, 6, 5]
  {
    hide Denote;
    TreesRunSequentially(s, t);
    NestedScriptMeaning(Inputs(s.trees[t].log));
  }
}
