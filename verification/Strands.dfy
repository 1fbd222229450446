/** Which fibers await which tasks, for good, in every run without timeout_after: no two fibers await the
    same task, and every failed join still has the fiber it stranded. */
module Strands {
  import opened Scripts
  import opened Machine
  import opened Control
  import opened WaitChains

  ghost predicate AwaitsApart(fs: seq<Fiber>) {
    forall f, g | 0 < f < |fs| && 0 < g < |fs| && fs[f].pc.Awaiting? && fs[f].pc == fs[g].pc :: f == g
  }

  ghost predicate Awaits(fs: seq<Fiber>, f: nat, t: nat) {
    0 < f < |fs| && fs[f].pc == Awaiting(t)
  }

  /** Every failed join has stranded a fiber, and that fiber is still there. */
  ghost predicate StrandsHeld(fs: seq<Fiber>, joined: map<nat, Fate>) {
    forall t | t in joined && joined[t] == JoinFailed :: exists f :: Awaits(fs, f, t)
  }

  ghost predicate Stranding(s: State) {
    AwaitsApart(s.fibers) && StrandsHeld(s.fibers, s.joined)
  }

  /** Who awaited goes on awaiting, nothing was joined, and only the current fiber may have begun to
      await, a new task. */
  ghost predicate Steady(s: State, r: State) {
    && r.joined == s.joined && |s.fibers| <= |r.fibers|
    && (forall f | 0 < f < |s.fibers| && s.fibers[f].pc.Awaiting? :: r.fibers[f].pc == s.fibers[f].pc)
    && (forall f | 0 < f < |r.fibers| && r.fibers[f].pc.Awaiting? ::
          (f < |s.fibers| && r.fibers[f].pc == s.fibers[f].pc) || (f == s.current && r.fibers[f].pc.task == s.spawned))
  }

  lemma AwaitedIsOld(s: State, f: nat)
    requires Controlled(s) && Chained(s) && 0 < f < |s.fibers| && s.fibers[f].pc.Awaiting?
    ensures s.fibers[f].pc.task < s.spawned
  {
    hide Links;
    assert Awaited(s.fibers, s.tasks, s.joined, f);
  }

  lemma SteadyKeeps(s: State, r: State)
    requires Controlled(s) && Chained(s) && Stranding(s) && Steady(s, r)
    ensures Stranding(r)
  {
    forall f | 0 < f < |s.fibers| && s.fibers[f].pc.Awaiting? ensures s.fibers[f].pc.task < s.spawned {
      AwaitedIsOld(s, f);
    }
    hide Controlled, Chained;
    forall t | t in r.joined && r.joined[t] == JoinFailed ensures exists f :: Awaits(r.fibers, f, t) {
      var f :| Awaits(s.fibers, f, t);
      assert Awaits(r.fibers, f, t);
    }
  }

  lemma EndBodySteady(s: State, res: Outcome)
    requires Controlled(s) && Chained(s) && s.current != ROOT
    ensures Steady(s, EndBody(s, res))
  {
    if s.fibers[s.current].parent.Some? { NestedBodyReturns(s, res); } else { RootBodyEnds(s, res); }
    assert s.fibers[s.current].pc.Executing?;
    hide EndBody, Controlled, Chained, WithVerdict, WithLeaf;
  }

  lemma FiberImplSteady(s: State, body: seq<Op>)
    requires Controlled(s)
    ensures Steady(s, FiberImpl(s, body))
  {
    assert s.current != ROOT ==> s.fibers[s.current].pc.Executing?;
    hide OneExecutes, TasksAccounted, BorrowMatches, ParentsInRange, TasksInRange, SendersInRange, WithLeaf, Tail, Lift;
  }

  lemma AwaitSteady(s: State)
    requires Controlled(s) && Chained(s) && s.current != ROOT
    ensures Steady(s, SpawnAndTransfer(s, External))
  {
    HookSuspends(s, External);
    assert s.fibers[s.current].pc.Executing?;
    hide SpawnAndTransfer, Controlled, Chained;
  }

  lemma BlockSteady(s: State, timed: bool)
    requires Controlled(s) && Chained(s) && s.current != ROOT
    ensures Steady(s, BlockCurrent(s, timed))
  {
    BlockSuspends(s, timed);
    assert s.fibers[s.current].pc.Executing?;
    hide BlockCurrent, DropSender, Controlled, Chained;
  }

  lemma ContinueSteady(s: State, r: State, cont: seq<Item>, raised: Option<Error>, events: seq<Event>)
    requires WellFormed(r) && r.fibers == s.fibers && r.joined == s.joined
    ensures Steady(s, Continue(r, cont, raised, events))
  {
  }

  /** The operations that only rewrite what is left of the current fiber. */
  lemma UnfoldSteady(s: State)
    requires WellFormed(s) && s.current != ROOT && s.raised.None?
    requires var k := s.fibers[s.current].cont;
      k != [] && (k[0].Catch? || k[0].op.Emit? || k[0].op.Raise? || k[0].op.Rescue?)
    ensures Steady(s, Advance(s))
  {
    var k := s.fibers[s.current].cont;
    hide Continue, EndBody, FiberImpl, SpawnAndTransfer, BlockCurrent, UnblockFiber, Spawn, Unwind, Lift, Steady, WellFormed;
    match k[0]
    case Do(Rescue(body, handler)) => ContinueSteady(s, s, Lift(body) + [Catch(handler)] + k[1..], None, []);
    case Do(Emit(n)) => ContinueSteady(s, s, k[1..], None, [Out(n)]);
    case Do(Raise(e)) => ContinueSteady(s, s, k[1..], Some(e), []);
    case Catch(_) => ContinueSteady(s, s, k[1..], None, []);
  }

  lemma StepSteady(s: State)
    requires Controlled(s) && Chained(s) && s.current != ROOT && Advance(s).timers == 0
    ensures Steady(s, Advance(s))
  {
    assert WellFormed(s);
    var k := s.fibers[s.current].cont;
    hide Continue, EndBody, FiberImpl, SpawnAndTransfer, BlockCurrent, UnblockFiber, Unwind, Spawn, Lift, Controlled, Chained,
         Steady, ParentsInRange, TasksInRange, SendersInRange;
    if s.raised.Some? {
      if Unwind(k).Some? { ContinueSteady(s, s, Unwind(k).value, None, []); } else { EndBodySteady(s, Err(s.raised.value)); }
    } else if k == [] {
      EndBodySteady(s, Ok(Nil));
    } else {
      match k[0]
      case Do(Schedule(body)) => FiberImplSteady(s, body);
      case Do(Await) => AwaitSteady(s);
      case Do(Block(timed)) => BlockSteady(s, timed);
      case Do(Unblock(target)) =>
        UnblockFrame(s, target);
        var (s1, res) := UnblockFiber(s, target);
        ContinueSteady(s, s1, Tail(s1.fibers[s1.current].cont), ErrorOf(res), [In(res)]);
      case Do(TimeoutAfter(body)) => StartsTimer(s, body);
      case _ => UnfoldSteady(s);
    }
  }

  /** Task `t` gets its fate, and at most the fiber `o` that awaits it stops awaiting. */
  lemma FateKeeps(fs: seq<Fiber>, gs: seq<Fiber>, joined: map<nat, Fate>, t: nat, o: nat, fate: Fate)
    requires AwaitsApart(fs) && StrandsHeld(fs, joined) && Awaits(fs, o, t) && t !in joined && |gs| == |fs|
    requires forall f | 0 < f < |fs| && f != o :: gs[f].pc == fs[f].pc
    requires if fate.JoinFailed? then gs[o].pc == fs[o].pc else !gs[o].pc.Awaiting?
    ensures AwaitsApart(gs) && StrandsHeld(gs, joined[t := fate])
  {
    var after := joined[t := fate];
    forall u | u in after && after[u] == JoinFailed ensures exists f :: Awaits(gs, f, u) {
      if u == t {
        assert Awaits(gs, o, u);
      } else {
        var f :| Awaits(fs, f, u);
        assert Awaits(gs, f, u);
      }
    }
  }

  /** A failed join strands the fiber that awaited the task; a delivery strands nobody. */
  lemma JoinStranding(s: State, t: nat)
    requires Controlled(s) && Chained(s) && Stranding(s) && Enabled(s, TaskJoined(t))
    ensures Stranding(Join(s, t))
  {
    var task, r := s.tasks[t], Join(s, t);
    assert t !in s.joined && Awaits(s.fibers, task.owner, t);
    if task.phase.Crashed? { JoinStrands(s, t); } else { JoinDelivers(s, t, task.phase.res); }
    hide Join, Controlled, Chained, WithLeaf, Logged, Tail, AwaitsApart, StrandsHeld;
    FateKeeps(s.fibers, r.fibers, s.joined, t, task.owner, r.joined[t]);
  }

  lemma QuietSteady(s: State, r: State)
    requires r.fibers == s.fibers && r.joined == s.joined
    ensures Steady(s, r)
  {
  }

  lemma EnvironmentSteady(s: State, a: Action)
    requires WellFormed(s) && Enabled(s, a) && IsEnvironment(a)
    ensures Steady(s, Next(s, a))
  {
    EnvironmentFrame(s, a);
    hide Next, Enabled, WellFormed, Steady;
    QuietSteady(s, Next(s, a));
  }

  lemma NextStranding(s: State, a: Action)
    requires Controlled(s) && Chained(s) && Stranding(s) && Enabled(s, a) && Next(s, a).timers == 0
    ensures Stranding(Next(s, a))
  {
    if a.TaskJoined? {
      JoinStranding(s, a.task);
    } else {
      NextSteady(s, a);
      hide Next, Enabled, Controlled, Chained, Stranding, Steady;
      SteadyKeeps(s, Next(s, a));
    }
  }

  lemma NextSteady(s: State, a: Action)
    requires Controlled(s) && Chained(s) && Enabled(s, a) && Next(s, a).timers == 0 && !a.TaskJoined?
    ensures Steady(s, Next(s, a))
  {
    assert !a.TimerFires?;
    assert WellFormed(s);
    hide Advance, FiberImpl, UnblockFiber, Join, FireTimer, Finish, Crash, Interrupt, Controlled, Chained, Steady,
         ParentsInRange, TasksInRange, SendersInRange;
    match a
    case RootSchedule(script) => FiberImplSteady(s, script);
    case RootUnblock(target) => UnblockFrame(s, target); QuietSteady(s, Next(s, a));
    case Step => StepSteady(s);
    case RootRun(closing) => QuietSteady(s, Next(s, a));
    case SetEmpty => QuietSteady(s, Next(s, a));
    case _ => EnvironmentSteady(s, a);
  }

  lemma {:induction false} RunsStranding(s: State, actions: seq<Action>, s': State)
    requires Controlled(s) && Chained(s) && Stranding(s) && Runs(s, actions, s') && s'.timers == 0
    ensures Stranding(s')
    decreases |actions|
  {
    hide Next, OneExecutes, BorrowMatches, Partitioned, TimersCounted, Links, Owners, Stranding;
    if actions != [] {
      var next := Next(s, actions[0]);
      NextControlled(s, actions[0]);
      TimersOnlyGrow(next, actions[1..], s');
      NextChained(s, actions[0]);
      NextStranding(s, actions[0]);
      RunsStranding(next, actions[1..], s');
    }
  }

  /** In every reachable state a task is awaited by at most one fiber, and a task that failed to join by
      exactly one. */
  lemma ReachableStranding(s: State)
    requires Reachable(s) && s.timers == 0
    ensures Controlled(s) && Chained(s) && Stranding(s)
  {
    ReachableChained(s);
    InitChained();
    assert Stranding(Init());
    hide Init, Controlled, Chained, Stranding;
    var actions :| Runs(Init(), actions, s);
    RunsStranding(Init(), actions, s);
  }
}
