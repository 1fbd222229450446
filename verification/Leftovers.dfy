/** A run in which every block has succeeded and `run` fails all the same, because of what a timer left. */
module Leftovers {
  import opened Scripts
  import opened Machine
  import opened Control
  import opened Progress
  import opened DeadFibers

  /** Fiber.schedule { begin; timeout_after { await }; rescue; end } inside a scheduled block. */
  function Inner(): seq<Op> {
    [Rescue([TimeoutAfter([Await])], [])]
  }

  function Script(): seq<Op> {
    [Schedule(Inner())]
  }

  function Fibers(outer: Pc, outerCont: seq<Item>): seq<Fiber> {
    [Fiber(Executing, [], None, ROOT), Fiber(outer, outerCont, None, 1)]
  }

  function Nested(outer: Pc, inner: Pc, cont: seq<Item>): seq<Fiber> {
    Fibers(outer, []) + [Fiber(inner, cont, Some(1), 1)]
  }

  function Trees(leaf: nat, log: seq<Event>, verdict: Option<Outcome>): map<nat, Tree> {
    map[1 := Tree(Script(), leaf, log, verdict)]
  }

  function Started(): State {
    Init().(fibers := Fibers(Executing, [Do(Schedule(Inner()))]), current := 1, rootPc := Scheduling, trees := Trees(1, [], None))
  }

  function InBlock(cont: seq<Item>): State {
    Started().(fibers := Nested(Nesting(2), Executing, cont), current := 2, trees := Trees(2, [], None))
  }

  function Timed(): State {
    InBlock([Do(Await), Catch([])]).(spawned := 1, timers := 1, tasks := map[0 := Task(2, Timer, Pending, false)])
  }

  function Waits(): State {
    Timed().(fibers := Nested(Nesting(2), Awaiting(1), [Do(Await), Catch([])]), spawned := 2, current := ROOT,
             rootPc := Idle, ret := Some(Ok(Nil)),
             tasks := map[0 := Task(2, Timer, Pending, false), 1 := Task(2, External, Pending, false)])
  }

  function InCall(): State {
    Waits().(borrowed := true, rootPc := Joining)
  }

  function Raised(cont: seq<Item>, raised: Option<Error>): State {
    InCall().(fibers := Nested(Nesting(2), Executing, cont), current := 2, raised := raised, rootPc := Polling(0),
              trees := Trees(2, [In(Err(TimedOut))], None))
  }

  function InnerOver(): State {
    Raised([], None).(fibers := Nested(Executing, Parked, []), current := 1, trees := Trees(1, [In(Err(TimedOut))], None))
  }

  function AllOver(phase: Phase): State {
    InnerOver().(fibers := Nested(Terminated, Parked, []), current := ROOT, rootPc := Joining,
                 trees := Trees(1, [In(Err(TimedOut))], Some(Ok(Nil))),
                 tasks := map[0 := Task(2, Timer, Finished(Ok(Nil)), false), 1 := Task(2, External, phase, false)])
  }

  lemma ToStarted()
    ensures Enabled(Init(), RootSchedule(Script())) && Next(Init(), RootSchedule(Script())) == Started()
  {
    assert Lift(Script()) == [Do(Schedule(Inner()))];
  }

  lemma ToInBlock()
    ensures WellFormed(Started()) && Enabled(Started(), Step)
    ensures Next(Started(), Step) == InBlock([Do(Rescue([TimeoutAfter([Await])], []))])
  {
    var k: seq<Item> := [Do(Schedule(Inner()))];
    assert Tail(k) == [];
    assert Lift(Inner()) == [Do(Rescue([TimeoutAfter([Await])], []))];
    var s, r := Started(), FiberImpl(Started(), Inner());
    assert s.fibers[1].cont == k && s.fibers[1].pc == Executing;
    assert r.fibers == Nested(Nesting(2), Executing, Lift(Inner()));
    hide EndBody, SpawnAndTransfer, BlockCurrent, UnblockFiber, Spawn, Lift, Continue;
  }

  lemma ToProtect()
    ensures var s := InBlock([Do(Rescue([TimeoutAfter([Await])], []))]);
      WellFormed(s) && Enabled(s, Step) && Next(s, Step) == InBlock([Do(TimeoutAfter([Await])), Catch([])])
  {
    var k := [Do(Rescue([TimeoutAfter([Await])], []))];
    assert Lift([TimeoutAfter([Await])]) + [Catch([])] + k[1..] == [Do(TimeoutAfter([Await])), Catch([])];
    var none: seq<Event> := [];
    assert none + [] == none;
    hide EndBody, SpawnAndTransfer, FiberImpl, BlockCurrent, UnblockFiber, Spawn, Lift;
  }

  lemma ToTimed()
    ensures var s := InBlock([Do(TimeoutAfter([Await])), Catch([])]);
      WellFormed(s) && Enabled(s, Step) && Next(s, Step) == Timed()
  {
    assert Lift([Await]) + [Do(TimeoutAfter([Await])), Catch([])][1..] == [Do(Await), Catch([])];
    var none: seq<Event> := [];
    assert none + [] == none;
    hide EndBody, SpawnAndTransfer, FiberImpl, BlockCurrent, UnblockFiber, Lift;
  }

  lemma ToWaits()
    ensures WellFormed(Timed()) && Enabled(Timed(), Step) && Next(Timed(), Step) == Waits()
  {
    hide EndBody, FiberImpl, BlockCurrent, UnblockFiber, Lift, Continue;
  }

  lemma ToRaised()
    ensures WellFormed(InCall()) && Enabled(InCall(), TimerFires(0))
    ensures Next(InCall(), TimerFires(0)) == Raised([Catch([])], Some(TimedOut))
  {
    assert [Do(Await), Catch([])][1..] == [Catch([])];
    assert [] + [In(Err(TimedOut))] == [In(Err(TimedOut))];
    hide Advance, FiberImpl, UnblockFiber, Join, ControlToRoot, Lift;
  }

  lemma ToRescued()
    ensures var s := Raised([Catch([])], Some(TimedOut));
      WellFormed(s) && Enabled(s, Step) && Next(s, Step) == Raised([], None)
  {
    assert Lift([]) + [Catch([])][1..] == [];
    assert Unwind([Catch([])]) == Some([]);
    assert [In(Err(TimedOut))] + [] == [In(Err(TimedOut))];
    hide EndBody, SpawnAndTransfer, FiberImpl, BlockCurrent, UnblockFiber, Spawn, Lift, Unwind;
  }

  lemma ToInnerOver()
    ensures WellFormed(Raised([], None)) && Enabled(Raised([], None), Step) && Next(Raised([], None), Step) == InnerOver()
  {
    hide SpawnAndTransfer, FiberImpl, BlockCurrent, UnblockFiber, Spawn, Lift, Unwind, ControlToRoot, Continue;
  }

  lemma ToAllOver()
    ensures WellFormed(InnerOver()) && Enabled(InnerOver(), Step) && Next(InnerOver(), Step) == AllOver(Pending)
  {
    hide SpawnAndTransfer, FiberImpl, BlockCurrent, UnblockFiber, Spawn, Lift, Unwind, Continue, Arrive;
  }

  lemma ToAnswered(e: Error)
    ensures WellFormed(AllOver(Pending)) && Enabled(AllOver(Pending), TaskFinishes(1, Err(e)))
    ensures Next(AllOver(Pending), TaskFinishes(1, Err(e))) == AllOver(Finished(Err(e)))
  {
    hide Advance, FiberImpl, UnblockFiber, Join, FireTimer;
  }

  lemma AllOverReachable(e: Error)
    ensures Reachable(AllOver(Finished(Err(e))))
  {
    var empty: seq<Action> := [];
    assert Runs(Init(), empty, Init());
    ToStarted();
    ToInBlock();
    ToProtect();
    ToTimed();
    ToWaits();
    assert WellFormed(Waits()) && Enabled(Waits(), RootRun(false)) && Next(Waits(), RootRun(false)) == InCall();
    ToRaised();
    ToRescued();
    ToInnerOver();
    ToAllOver();
    ToAnswered(e);
    hide *;
    OneActionReachable(Init(), RootSchedule(Script()));
    OneActionReachable(Started(), Step);
    OneActionReachable(InBlock([Do(Rescue([TimeoutAfter([Await])], []))]), Step);
    OneActionReachable(InBlock([Do(TimeoutAfter([Await])), Catch([])]), Step);
    OneActionReachable(Timed(), Step);
    OneActionReachable(Waits(), RootRun(false));
    OneActionReachable(InCall(), TimerFires(0));
    OneActionReachable(Raised([Catch([])], Some(TimedOut)), Step);
    OneActionReachable(Raised([], None), Step);
    OneActionReachable(InnerOver(), Step);
    OneActionReachable(AllOver(Pending), TaskFinishes(1, Err(e)));
  }

  /** Every block is complete and has ended with a value, the one exception was rescued, and yet `run`
      returns the error `e`: it is the outcome of the call that the timeout had cut short, delivered to a
      fiber whose nested block is over. */
  lemma LeftoverFailsRun(e: Error) returns (s: State)
    ensures Reachable(s) && (forall t | t in s.trees :: s.trees[t].verdict == Some(Ok(Nil)))
    ensures forall f | 0 < f < |s.fibers| :: s.fibers[f].pc.Parked? || s.fibers[f].pc.Terminated?
    ensures Enabled(s, TaskJoined(1)) && Next(s, TaskJoined(1)).rootPc == Idle && Next(s, TaskJoined(1)).ret == Some(Err(e))
  {
    s := AllOver(Finished(Err(e)));
    AllOverReachable(e);
    ReachableControlled(s);
    OverButDelivered(s, 1, Err(e));
  }
}
