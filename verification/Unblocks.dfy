/** What becomes of an unblock, exactly, in every run without timeout_after.

    `unblock` answers Ok as soon as the sender has been used. Whether the fiber is then resumed depends on
    its task: an aborted task still holds its receiver but is never polled to its end, and an interrupt
    aborts every pending task. */
module Unblocks {
  import opened Scripts
  import opened Machine
  import opened Control
  import opened WaitChains
  import opened Listeners
  import opened Senders
  import opened Progress
  import opened DeadFibers
  import opened Interrupts

  /** Task `t` of fiber `f` has been unblocked and is on its way: it is in the set and can finish only
      with true, has finished with true, or has been delivered with true. */
  ghost predicate Owed(s: State, t: nat, f: nat) {
    if t in s.tasks then
      && s.tasks[t].owner == f && s.tasks[t].kind.Blocking? && s.tasks[t].kind.chan < |s.chans|
      && match s.tasks[t].phase
         case Pending => !s.tasks[t].aborted && s.chans[s.tasks[t].kind.chan].state == Signalled
         case Finished(res) => res == Ok(True)
         case Crashed => false
    else t in s.joined && s.joined[t] == Delivered(Ok(True))
  }

  /** Action `a` makes task `t` panic, or interrupts `run` while `t` is pending. */
  ghost predicate Spoils(s: State, a: Action, t: nat) {
    a == TaskPanics(t) || (a.Interrupted? && t in s.tasks && s.tasks[t].phase.Pending?)
  }

  /** No action of the run spoils task `t`. */
  ghost predicate Undisturbed(s: State, actions: seq<Action>, t: nat)
    requires WellFormed(s)
    decreases |actions|
  {
    actions != [] && Enabled(s, actions[0]) ==>
      !Spoils(s, actions[0], t) && Undisturbed(Next(s, actions[0]), actions[1..], t)
  }

  lemma NextOwed(s: State, a: Action, t: nat, f: nat)
    requires Controlled(s) && Chained(s) && Paired(s) && Owed(s, t, f) && Enabled(s, a) && Next(s, a).timers == 0
    requires !Spoils(s, a, t)
    ensures Owed(Next(s, a), t, f)
  {
    assert !a.TimerFires?;
    match a
    case Step => StepOwed(s, t, f);
    case TaskJoined(u) => JoinOwed(s, u, t, f);
    case RootUnblock(target) => UnblockOwed(s, target, t, f);
    case TaskFinishes(u, res) => FinishOwed(s, u, res, t, f);
    case TaskPanics(u) => CrashOwed(s, u, t, f);
    case TaskCancelled(u) => CrashOwed(s, u, t, f);
    case RootSchedule(script) =>
    case RootRun(closing) =>
    case SetEmpty =>
    case Interrupted(e) =>
  }

  /** Task `u` gets a final phase, and is not one that may fail what is owed. */
  lemma PhaseOwed(s: State, r: State, u: nat, phase: Phase, t: nat, f: nat)
    requires Owners(s.fibers, s.tasks, s.joined) && Receivers(s.tasks, s.blockers, s.chans) && Owed(s, t, f)
    requires u in s.tasks && s.tasks[u].phase.Pending? && !phase.Pending?
    requires u == t ==> phase == Finished(Ok(True))
    requires s.tasks[u].kind.Blocking? ==> s.tasks[u].kind.chan < |s.chans|
    requires r.tasks == s.tasks[u := s.tasks[u].(phase := phase)] && r.joined == s.joined
    requires r.chans == DropReceiver(s.chans, s.tasks[u].kind)
    ensures Owed(r, t, f)
  {
    if t in s.tasks {
      assert ReceiverOk(s.tasks, s.blockers, s.chans, t);
      assert ReceiverOk(s.tasks, s.blockers, s.chans, u);
    }
  }

  lemma CrashOwed(s: State, u: nat, t: nat, f: nat)
    requires Controlled(s) && Chained(s) && Paired(s) && Owed(s, t, f) && u in s.tasks && s.tasks[u].phase.Pending? && u != t
    ensures Owed(Crash(s, u), t, f)
  {
    hide Links, Owners, OneExecutes, TasksAccounted, BorrowMatches, MapOk, Receivers, Owed;
    PhaseOwed(s, Crash(s, u), u, Crashed, t, f);
  }

  lemma FinishOwed(s: State, u: nat, res: Outcome, t: nat, f: nat)
    requires Controlled(s) && Chained(s) && Paired(s) && Owed(s, t, f) && Enabled(s, TaskFinishes(u, res))
    ensures Owed(Finish(s, u, res), t, f)
  {
    RootNeverBlocks(s);
    FinishKeepsMap(s, u, res);
    assert u == t ==> res == Ok(True);
    hide Links, Owners, OneExecutes, TasksAccounted, MapOk, Receivers, Owed, Finish, Enabled;
    PhaseOwed(s, Finish(s, u, res), u, Finished(res), t, f);
  }

  lemma UnblockOwed(s: State, target: nat, t: nat, f: nat)
    requires Controlled(s) && Chained(s) && Paired(s) && Owed(s, t, f)
    ensures Owed(UnblockFiber(s, target).0, t, f)
  {
    UnblockFrame(s, target);
    hide Links, OneExecutes, TimersCounted, Partitioned, BorrowMatches, Receivers;
    if target in s.blockers {
      assert SenderOk(s.fibers, s.tasks, s.blockers, s.chans, target);
    }
  }

  /** A task that has its final phase leaves the set, to the fate that phase calls for. */
  lemma LeftOwed(s: State, r: State, u: nat, t: nat, f: nat)
    requires Owed(s, t, f) && u in s.tasks && !s.tasks[u].phase.Pending? && u !in s.joined
    requires r.tasks == s.tasks - {u} && r.chans == s.chans
    requires r.joined == s.joined[u := if s.tasks[u].phase.Crashed? then JoinFailed else Delivered(s.tasks[u].phase.res)]
    ensures Owed(r, t, f)
  {
  }

  lemma JoinOwed(s: State, u: nat, t: nat, f: nat)
    requires Controlled(s) && Chained(s) && Owed(s, t, f) && Enabled(s, TaskJoined(u))
    ensures Owed(Join(s, u), t, f)
  {
    assert u !in s.joined;
    if s.tasks[u].phase.Crashed? { JoinStrands(s, u); } else { JoinDelivers(s, u, s.tasks[u].phase.res); }
    hide Join, Controlled, Chained, WithLeaf, Logged, Tail, Owed;
    LeftOwed(s, Join(s, u), u, t, f);
  }

  lemma SameChansOwed(s: State, r: State, t: nat, f: nat)
    requires Owed(s, t, f)
    requires r.tasks == s.tasks && r.joined == s.joined && r.chans == s.chans
    ensures Owed(r, t, f)
  {
  }

  lemma ContinueOwed(s: State, cont: seq<Item>, raised: Option<Error>, events: seq<Event>, t: nat, f: nat)
    requires WellFormed(s) && Owed(s, t, f)
    ensures Owed(Continue(s, cont, raised, events), t, f)
  {
    hide Owed, ParentsInRange, TasksInRange, SendersInRange, Logged;
    SameChansOwed(s, Continue(s, cont, raised, events), t, f);
  }

  lemma FiberImplOwed(s: State, body: seq<Op>, t: nat, f: nat)
    requires WellFormed(s) && Owed(s, t, f)
    ensures Owed(FiberImpl(s, body), t, f)
  {
    hide Owed, ParentsInRange, TasksInRange, SendersInRange, WithLeaf, Tail, Lift;
    var r := FiberImpl(s, body);
    if s.current == ROOT {
      assert r.tasks == s.tasks && r.joined == s.joined && r.chans == s.chans;
    } else {
      assert r.tasks == s.tasks && r.joined == s.joined && r.chans == s.chans;
    }
    hide FiberImpl;
    SameChansOwed(s, r, t, f);
  }

  lemma AwaitOwed(s: State, t: nat, f: nat)
    requires Controlled(s) && Chained(s) && Owed(s, t, f) && s.current != ROOT
    ensures Owed(SpawnAndTransfer(s, External), t, f)
  {
    assert s.spawned !in s.tasks && s.spawned !in s.joined;
    HookSuspends(s, External);
    hide SpawnAndTransfer, Controlled, Chained;
  }

  /** The operations that only rewrite what is left of the current fiber. */
  lemma UnfoldOwed(s: State, t: nat, f: nat)
    requires WellFormed(s) && Owed(s, t, f) && s.current != ROOT && s.raised.None?
    requires var k := s.fibers[s.current].cont;
      k != [] && (k[0].Catch? || k[0].op.Emit? || k[0].op.Raise? || k[0].op.Rescue?)
    ensures Owed(Advance(s), t, f)
  {
    var k := s.fibers[s.current].cont;
    hide Continue, EndBody, FiberImpl, SpawnAndTransfer, BlockCurrent, UnblockFiber, Spawn, Unwind, Lift, Owed, WellFormed;
    match k[0]
    case Do(Rescue(body, handler)) => ContinueOwed(s, Lift(body) + [Catch(handler)] + k[1..], None, [], t, f);
    case Do(Emit(n)) => ContinueOwed(s, k[1..], None, [Out(n)], t, f);
    case Do(Raise(e)) => ContinueOwed(s, k[1..], Some(e), [], t, f);
    case Catch(_) => ContinueOwed(s, k[1..], None, [], t, f);
  }

  lemma StepOwed(s: State, t: nat, f: nat)
    requires Controlled(s) && Chained(s) && Paired(s) && Owed(s, t, f) && s.current != ROOT && Advance(s).timers == 0
    ensures Owed(Advance(s), t, f)
  {
    assert WellFormed(s);
    var k := s.fibers[s.current].cont;
    hide Continue, EndBody, FiberImpl, SpawnAndTransfer, BlockCurrent, UnblockFiber, Unwind, Controlled, Chained, Paired, Owed;
    if s.raised.Some? {
      if Unwind(k).Some? { ContinueOwed(s, Unwind(k).value, None, [], t, f); } else { EndBodyOwed(s, Err(s.raised.value), t, f); }
    } else if k == [] {
      EndBodyOwed(s, Ok(Nil), t, f);
    } else {
      match k[0]
      case Do(Schedule(body)) => FiberImplOwed(s, body, t, f);
      case Do(Await) => AwaitOwed(s, t, f);
      case Do(Block(timed)) => BlockOwed(s, timed, t, f);
      case Do(Unblock(target)) =>
        UnblockOwed(s, target, t, f);
        var (s1, res) := UnblockFiber(s, target);
        ContinueOwed(s1, Tail(s1.fibers[s1.current].cont), ErrorOf(res), [In(res)], t, f);
      case Do(TimeoutAfter(body)) => StartsTimer(s, body);
      case _ => UnfoldOwed(s, t, f);
    }
  }

  lemma EndBodyOwed(s: State, res: Outcome, t: nat, f: nat)
    requires Controlled(s) && Chained(s) && Owed(s, t, f) && s.current != ROOT
    ensures Owed(EndBody(s, res), t, f)
  {
    if s.fibers[s.current].parent.Some? { NestedBodyReturns(s, res); } else { RootBodyEnds(s, res); }
    hide EndBody, Controlled, Chained, WithVerdict, WithLeaf;
    SameChansOwed(s, EndBody(s, res), t, f);
  }

  lemma BlockOwed(s: State, timed: bool, t: nat, f: nat)
    requires Controlled(s) && Chained(s) && Paired(s) && Owed(s, t, f) && s.current != ROOT
    ensures Owed(BlockCurrent(s, timed), t, f)
  {
    assert s.spawned !in s.tasks && s.spawned !in s.joined;
    BlockSuspends(s, timed);
    CurrentOwnsNothing(s);
    hide BlockCurrent, DropSender, Controlled, Chained, Paired;
  }

  /** A spoiled task takes its fiber with it. */
  lemma SpoiledIsDoomed(s: State, a: Action, t: nat, f: nat)
    requires Controlled(s) && Chained(s) && Owed(s, t, f) && Enabled(s, a) && Spoils(s, a, t)
    ensures Doomed(Next(s, a), t, f)
  {
    assert t in s.tasks && s.fibers[f].pc == Awaiting(t) && 0 < f < |s.fibers|;
    if a.Interrupted? {
      InterruptDooms(s, a.error, t);
    } else {
      hide Links, Owners, OneExecutes, TasksAccounted, ParentsInRange, SendersInRange, DropReceiver;
      assert Next(s, a) == Crash(s, t);
    }
  }

  lemma OwedOrDoomed(s: State, t: nat, f: nat)
    ensures !(Owed(s, t, f) && Doomed(s, t, f))
  {
  }

  lemma {:induction false} RunsOwed(s: State, actions: seq<Action>, s': State, t: nat, f: nat)
    requires Controlled(s) && Chained(s) && Paired(s) && Owed(s, t, f) && Runs(s, actions, s') && s'.timers == 0
    ensures if Undisturbed(s, actions, t) then Owed(s', t, f) else Doomed(s', t, f)
    decreases |actions|
  {
    hide Next, OneExecutes, BorrowMatches, Partitioned, TimersCounted, Links, Owners, Receivers, MapOk, Owed, Doomed, Spoils;
    if actions != [] {
      var next := Next(s, actions[0]);
      NextControlled(s, actions[0]);
      TimersOnlyGrow(next, actions[1..], s');
      NextChained(s, actions[0]);
      NextPairs(s, actions[0]);
      if Spoils(s, actions[0], t) {
        SpoiledIsDoomed(s, actions[0], t, f);
        RunsDoomed(next, actions[1..], s', t, f);
      } else {
        NextOwed(s, actions[0], t, f);
        RunsOwed(next, actions[1..], s', t, f);
      }
    }
  }

  /** Action `a` is a call of unblock on fiber `f`, by the root program or by the current fiber. */
  ghost predicate CallsUnblock(s: State, a: Action, f: nat)
    requires WellFormed(s)
  {
    || a == RootUnblock(f)
    || (a == Step && s.raised.None? && s.fibers[s.current].cont != [] && s.fibers[s.current].cont[0] == Do(Unblock(f)))
  }

  /** Fiber `f` is suspended in a block whose task `t` has been neither unblocked nor timed out. */
  ghost predicate BlockedOn(s: State, f: nat, t: nat)
    requires WellFormed(s)
  {
    && 0 < f < |s.fibers| && CheckSuspended(s, f) == None
    && s.fibers[f].pc == Awaiting(t) && t in s.tasks && s.tasks[t].kind.Blocking? && s.tasks[t].phase.Pending?
    && s.chans[s.tasks[t].kind.chan].state == Open
  }

  /** The unblock of a blocked fiber by `a` keeps its promise along the run that follows: the block was
      not aborted, and its task does not panic and is not caught pending by an interrupt. */
  ghost predicate Kept(s: State, a: Action, t: nat, actions: seq<Action>)
    requires WellFormed(s) && Enabled(s, a) && t in s.tasks
  {
    !s.tasks[t].aborted && Undisturbed(Next(s, a), actions, t)
  }

  /** Which unblocks are lost, exactly. An unblock issued while its target is blocked and has not timed
      out returns Ok, and repeating it changes nothing. If the block has not been aborted and neither a
      panic nor an interrupt hits its task while pending, then in every later state the task can finish
      only with true, has finished with true, or has been delivered with true. Otherwise, and only then,
      the unblock is lost in spite of the Ok: the fiber never runs again. */
  lemma UnblockLostExactly(s: State, a: Action, f: nat, t: nat, actions: seq<Action>, s': State)
    requires Reachable(s) && s.timers == 0 && Enabled(s, a) && CallsUnblock(s, a, f) && BlockedOn(s, f, t)
    requires Runs(Next(s, a), actions, s') && s'.timers == 0
    ensures var r := UnblockFiber(s, f); r.1 == Ok(Nil) && UnblockFiber(r.0, f) == r
    ensures Owed(s', t, f) <==> Kept(s, a, t, actions)
    ensures Doomed(s', t, f) <==> !Kept(s, a, t, actions)
  {
    UnblockWakes(s, f, t);
    UnblockFate(s, a, f, t, actions, s');
    hide Owed, Doomed, UnblockFiber, Next, Enabled, Runs;
    OwedOrDoomed(s', t, f);
  }

  lemma UnblockFate(s: State, a: Action, f: nat, t: nat, actions: seq<Action>, s': State)
    requires Reachable(s) && s.timers == 0 && Enabled(s, a) && CallsUnblock(s, a, f) && BlockedOn(s, f, t)
    requires Runs(Next(s, a), actions, s') && s'.timers == 0
    ensures if Kept(s, a, t, actions) then Owed(s', t, f) else Doomed(s', t, f)
  {
    ReachablePaired(s);
    var next := Next(s, a);
    if s.tasks[t].aborted { AbortedIsDoomed(s, f, t); } else { UnblockActionOwed(s, a, f, t); }
    hide UnblockFiber, Owed, Doomed, Controlled, Chained, Paired, Next, CallsUnblock, Enabled, BlockedOn, Undisturbed;
    TimersOnlyGrow(next, actions, s');
    NextControlled(s, a);
    NextChained(s, a);
    if s.tasks[t].aborted {
      NextDoomed(s, a, t, f);
      RunsDoomed(next, actions, s', t, f);
    } else {
      NextPairs(s, a);
      RunsOwed(next, actions, s', t, f);
    }
  }

  lemma AbortedIsDoomed(s: State, f: nat, t: nat)
    requires Controlled(s) && Chained(s) && BlockedOn(s, f, t) && s.tasks[t].aborted
    ensures Doomed(s, t, f)
  {
  }

  lemma UnblockActionOwed(s: State, a: Action, f: nat, t: nat)
    requires Reachable(s) && s.timers == 0 && Enabled(s, a) && CallsUnblock(s, a, f) && BlockedOn(s, f, t)
    requires !s.tasks[t].aborted
    ensures Owed(Next(s, a), t, f)
  {
    UnblockWakes(s, f, t);
    var r := UnblockFiber(s, f).0;
    UnblockFrame(s, f);
    hide UnblockFiber, BlockedOn, Continue, Owed, EndBody, FiberImpl, SpawnAndTransfer, BlockCurrent,
         ParentsInRange, TasksInRange, SendersInRange;
    if a == Step {
      ContinueOwed(r, Tail(r.fibers[r.current].cont), None, [In(Ok(Nil))], t, f);
    } else {
      SameChansOwed(r, Next(s, a), t, f);
    }
  }

  lemma UnblockWakes(s: State, f: nat, t: nat)
    requires Reachable(s) && s.timers == 0 && BlockedOn(s, f, t)
    ensures var r := UnblockFiber(s, f);
      r.1 == Ok(Nil) && UnblockFiber(r.0, f) == r && CheckSuspended(r.0, f) == None
      && (!s.tasks[t].aborted ==> Owed(r.0, t, f))
  {
    ReachablePaired(s);
    UnblockExactly(s, f);
    UnblockFrame(s, f);
    assert ReceiverOk(s.tasks, s.blockers, s.chans, t);
  }

  /** What the fiber gets in the end: in any run from such an unblock that goes on until nothing can
      happen, and in any that ends with the set empty, the block's task has been delivered with true, or
      has failed to join, and the latter exactly if the unblock was lost. */
  lemma UnblockedIsResumed(s: State, a: Action, f: nat, t: nat, actions: seq<Action>, s': State)
    requires Reachable(s) && s.timers == 0 && Enabled(s, a) && CallsUnblock(s, a, f) && BlockedOn(s, f, t)
    requires Runs(Next(s, a), actions, s') && WellFormed(s') && s'.timers == 0
    requires s'.tasks == map[] || (s'.rootPc != Idle && !CanProgress(s'))
    ensures t in s'.joined && s'.joined[t] == if Kept(s, a, t, actions) then Delivered(Ok(True)) else JoinFailed
  {
    UnblockLostExactly(s, a, f, t, actions, s');
    hide Next, CallsUnblock, BlockedOn, Enabled, UnblockFiber;
    if t in s'.tasks {
      OneActionReachable(s, a);
      ReachableExtends(Next(s, a), actions, s');
      DeadlockExactly(s');
    }
  }

  // ---- an unblock that is lost ------------------------------------------------------------------

  function LoneBlock(): seq<Op> {
    [Block(false)]
  }

  // The states of one run: scheduled, blocked, `run` waiting, interrupted.
  function BlockScheduled(): State {
    Init().(fibers := [Fiber(Executing, [], None, ROOT), Fiber(Executing, [Do(Block(false))], None, 1)],
            current := 1, rootPc := Scheduling, trees := map[1 := Tree(LoneBlock(), 1, [], None)])
  }

  function BlockWaits(): State {
    BlockScheduled().(fibers := [Fiber(Executing, [], None, ROOT), Fiber(Awaiting(0), [Do(Block(false))], None, 1)],
                      current := ROOT, rootPc := Idle, ret := Some(Ok(Nil)), spawned := 1,
                      tasks := map[0 := Task(1, Blocking(0, false), Pending, false)],
                      blockers := map[1 := 0], chans := [Chan(1, Open)])
  }

  function BlockInRun(): State {
    BlockWaits().(borrowed := true, rootPc := Joining)
  }

  function BlockAborted(e: Error): State {
    BlockWaits().(ret := Some(Err(e)), tasks := map[0 := Task(1, Blocking(0, false), Pending, true)])
  }

  lemma ToBlockScheduled()
    ensures Enabled(Init(), RootSchedule(LoneBlock())) && Next(Init(), RootSchedule(LoneBlock())) == BlockScheduled()
  {
    assert Lift(LoneBlock()) == [Do(Block(false))];
  }

  lemma ToBlockWaits()
    ensures WellFormed(BlockScheduled()) && Enabled(BlockScheduled(), Step) && Next(BlockScheduled(), Step) == BlockWaits()
  {
    hide EndBody, FiberImpl, UnblockFiber, Lift, Continue;
  }

  lemma ToBlockAborted(e: Error)
    ensures WellFormed(BlockWaits()) && Enabled(BlockWaits(), RootRun(false))
    ensures Next(BlockWaits(), RootRun(false)) == BlockInRun()
    ensures WellFormed(BlockInRun()) && Enabled(BlockInRun(), Interrupted(e))
    ensures Next(BlockInRun(), Interrupted(e)) == BlockAborted(e)
  {
    hide Advance, FiberImpl, UnblockFiber, Join, FireTimer;
  }

  /** An unblock can be lost: after an interrupt the aborted block still holds its receiver, so unblock
      returns Ok to the root program, and the fiber stays suspended in every later state of every run. */
  lemma AbortedUnblockIsLost(e: Error) returns (s: State)
    ensures Reachable(s) && s.timers == 0 && BlockedOn(s, 1, 0) && s.tasks[0].aborted
    ensures Enabled(s, RootUnblock(1)) && Next(s, RootUnblock(1)).ret == Some(Ok(Nil))
    ensures forall actions, s' | Runs(Next(s, RootUnblock(1)), actions, s') && s'.timers == 0 :: Doomed(s', 0, 1)
  {
    s := BlockAborted(e);
    AbortedReachable(e);
    UnblockWakes(s, 1, 0);
    forall actions, s' | Runs(Next(s, RootUnblock(1)), actions, s') && s'.timers == 0 ensures Doomed(s', 0, 1) {
      UnblockLostExactly(s, RootUnblock(1), 1, 0, actions, s');
    }
  }

  lemma AbortedReachable(e: Error)
    ensures Reachable(BlockAborted(e))
  {
    var empty: seq<Action> := [];
    assert Runs(Init(), empty, Init());
    ToBlockScheduled();
    ToBlockWaits();
    ToBlockAborted(e);
    hide Next, Enabled, Init, WellFormed, BlockScheduled, BlockWaits, BlockInRun, BlockAborted;
    OneActionReachable(Init(), RootSchedule(LoneBlock()));
    OneActionReachable(BlockScheduled(), Step);
    OneActionReachable(BlockWaits(), RootRun(false));
    OneActionReachable(BlockInRun(), Interrupted(e));
  }
}
