/** What an interrupt leaves behind, in every run without timeout_after.

    When check_interrupts wins the select, `run` aborts every pending task and returns. The tasks stay in
    the set until a later `run` joins them, and their fibers never run again. */
module Interrupts {
  import opened Scripts
  import opened Machine
  import opened Control
  import opened WaitChains
  import opened Progress
  import opened DeadFibers

  /** Fiber `f` awaits task `t`, which is aborted or crashed, or has failed to join. */
  ghost predicate Doomed(s: State, t: nat, f: nat) {
    && 0 < f < |s.fibers| && s.fibers[f].pc == Awaiting(t)
    && (if t in s.tasks then
          s.tasks[t].owner == f && (s.tasks[t].phase.Crashed? || (s.tasks[t].phase.Pending? && s.tasks[t].aborted))
        else t in s.joined && s.joined[t] == JoinFailed)
  }

  /** Nothing about `t` and `f` has changed. */
  lemma SameDoom(s: State, r: State, t: nat, f: nat)
    requires Doomed(s, t, f)
    requires |s.fibers| <= |r.fibers| && r.fibers[f].pc == s.fibers[f].pc
    requires (t in r.tasks <==> t in s.tasks) && (t in s.tasks ==> r.tasks[t] == s.tasks[t])
    requires t in s.joined ==> t in r.joined && r.joined[t] == s.joined[t]
    ensures Doomed(r, t, f)
  {
  }

  lemma ContinueDoomed(s: State, cont: seq<Item>, raised: Option<Error>, events: seq<Event>, t: nat, f: nat)
    requires WellFormed(s) && Doomed(s, t, f)
    ensures Doomed(Continue(s, cont, raised, events), t, f)
  {
  }

  lemma EndBodyDoomed(s: State, res: Outcome, t: nat, f: nat)
    requires Controlled(s) && Chained(s) && Doomed(s, t, f) && s.current != ROOT
    ensures Doomed(EndBody(s, res), t, f)
  {
    assert f != s.current;
    if s.fibers[s.current].parent.Some? { NestedBodyReturns(s, res); } else { RootBodyEnds(s, res); }
    hide EndBody, Controlled, Chained, WithVerdict, WithLeaf;
    SameDoom(s, EndBody(s, res), t, f);
  }

  lemma FiberImplDoomed(s: State, body: seq<Op>, t: nat, f: nat)
    requires Controlled(s) && Doomed(s, t, f)
    ensures Doomed(FiberImpl(s, body), t, f)
  {
    assert f != s.current;
    hide OneExecutes, TasksAccounted, ParentsInRange, TasksInRange, SendersInRange, WithLeaf, Tail, Lift;
    SameDoom(s, FiberImpl(s, body), t, f);
  }

  lemma HookDoomed(s: State, r: State, t: nat, f: nat, task: Task)
    requires Controlled(s) && Doomed(s, t, f) && s.current != ROOT
    requires r.fibers == s.fibers[s.current := s.fibers[s.current].(pc := Awaiting(s.spawned))]
    requires r.tasks == s.tasks[s.spawned := task] && r.joined == s.joined
    ensures Doomed(r, t, f)
  {
    assert f != s.current && t != s.spawned;
    hide Controlled;
    SameDoom(s, r, t, f);
  }

  /** The operations that only rewrite what is left of the current fiber. */
  lemma UnfoldDoomed(s: State, t: nat, f: nat)
    requires WellFormed(s) && Doomed(s, t, f) && s.current != ROOT && s.raised.None?
    requires var k := s.fibers[s.current].cont;
      k != [] && (k[0].Catch? || k[0].op.Emit? || k[0].op.Raise? || k[0].op.Rescue?)
    ensures Doomed(Advance(s), t, f)
  {
    var k := s.fibers[s.current].cont;
    hide Continue, EndBody, FiberImpl, SpawnAndTransfer, BlockCurrent, UnblockFiber, Spawn, Unwind, Lift, Doomed, WellFormed;
    match k[0]
    case Do(Rescue(body, handler)) => ContinueDoomed(s, Lift(body) + [Catch(handler)] + k[1..], None, [], t, f);
    case Do(Emit(n)) => ContinueDoomed(s, k[1..], None, [Out(n)], t, f);
    case Do(Raise(e)) => ContinueDoomed(s, k[1..], Some(e), [], t, f);
    case Catch(_) => ContinueDoomed(s, k[1..], None, [], t, f);
  }

  lemma StepDoomed(s: State, t: nat, f: nat)
    requires Controlled(s) && Chained(s) && Doomed(s, t, f) && s.current != ROOT && Advance(s).timers == 0
    ensures Doomed(Advance(s), t, f)
  {
    assert WellFormed(s);
    var k := s.fibers[s.current].cont;
    hide Continue, EndBody, FiberImpl, SpawnAndTransfer, BlockCurrent, UnblockFiber, Unwind, Spawn, Lift, Controlled, Chained, Doomed,
         ParentsInRange, TasksInRange, SendersInRange;
    if s.raised.Some? {
      if Unwind(k).Some? { ContinueDoomed(s, Unwind(k).value, None, [], t, f); } else { EndBodyDoomed(s, Err(s.raised.value), t, f); }
    } else if k == [] {
      EndBodyDoomed(s, Ok(Nil), t, f);
    } else {
      match k[0]
      case Do(Schedule(body)) => FiberImplDoomed(s, body, t, f);
      case Do(Await) => AwaitDoomed(s, t, f);
      case Do(Block(timed)) => BlockDoomed(s, timed, t, f);
      case Do(Unblock(target)) =>
        UnblockDoomed(s, target, t, f);
        var (s1, res) := UnblockFiber(s, target);
        ContinueDoomed(s1, Tail(s1.fibers[s1.current].cont), ErrorOf(res), [In(res)], t, f);
      case Do(TimeoutAfter(body)) => StartsTimer(s, body);
      case _ => UnfoldDoomed(s, t, f);
    }
  }

  lemma AwaitDoomed(s: State, t: nat, f: nat)
    requires Controlled(s) && Chained(s) && Doomed(s, t, f) && s.current != ROOT
    ensures Doomed(SpawnAndTransfer(s, External), t, f)
  {
    HookSuspends(s, External);
    hide SpawnAndTransfer, Controlled, Chained, Doomed;
    HookDoomed(s, SpawnAndTransfer(s, External), t, f, Task(s.current, External, if s.runtimeOpen then Pending else Crashed, false));
  }

  lemma BlockDoomed(s: State, timed: bool, t: nat, f: nat)
    requires Controlled(s) && Chained(s) && Doomed(s, t, f) && s.current != ROOT
    ensures Doomed(BlockCurrent(s, timed), t, f)
  {
    BlockSuspends(s, timed);
    hide BlockCurrent, DropSender, Controlled, Chained, Doomed;
    HookDoomed(s, BlockCurrent(s, timed), t, f,
               Task(s.current, Blocking(|s.chans|, timed), if s.runtimeOpen then Pending else Crashed, false));
  }

  lemma UnblockDoomed(s: State, target: nat, t: nat, f: nat)
    requires WellFormed(s) && Doomed(s, t, f)
    ensures Doomed(UnblockFiber(s, target).0, t, f)
  {
    UnblockFrame(s, target);
    hide UnblockFiber, WellFormed;
    SameDoom(s, UnblockFiber(s, target).0, t, f);
  }

  lemma JoinDoomed(s: State, u: nat, t: nat, f: nat)
    requires Controlled(s) && Chained(s) && Doomed(s, t, f) && Enabled(s, TaskJoined(u))
    ensures Doomed(Join(s, u), t, f)
  {
    assert u !in s.joined && s.fibers[s.tasks[u].owner].pc == Awaiting(u);
    if s.tasks[u].phase.Crashed? {
      JoinStrands(s, u);
    } else {
      JoinDelivers(s, u, s.tasks[u].phase.res);
    }
    hide Join, Controlled, Chained, WithLeaf, Logged, Tail;
  }

  lemma EnvironmentDoomed(s: State, a: Action, t: nat, f: nat)
    requires Controlled(s) && Doomed(s, t, f) && Enabled(s, a) && IsEnvironment(a)
    ensures Doomed(Next(s, a), t, f)
  {
    EnvironmentFrame(s, a);
    hide OneExecutes, TasksAccounted, DropReceiver, DropSender, ParentsInRange, TasksInRange, SendersInRange,
         FiberImpl, UnblockFiber, Advance, FireTimer, Join, BeginJoin;
  }

  lemma NextDoomed(s: State, a: Action, t: nat, f: nat)
    requires Controlled(s) && Chained(s) && Doomed(s, t, f) && Enabled(s, a) && Next(s, a).timers == 0
    ensures Doomed(Next(s, a), t, f)
  {
    assert !a.TimerFires?;
    assert WellFormed(s);
    hide Advance, FiberImpl, UnblockFiber, Join, FireTimer, Finish, Crash, Interrupt, Controlled, Chained;
    match a
    case RootSchedule(script) => FiberImplDoomed(s, script, t, f);
    case RootUnblock(target) => UnblockDoomed(s, target, t, f);
    case Step => StepDoomed(s, t, f);
    case TaskJoined(u) => JoinDoomed(s, u, t, f);
    case RootRun(closing) =>
    case SetEmpty =>
    case _ => EnvironmentDoomed(s, a, t, f);
  }

  lemma {:induction false} RunsDoomed(s: State, actions: seq<Action>, s': State, t: nat, f: nat)
    requires Controlled(s) && Chained(s) && Doomed(s, t, f) && Runs(s, actions, s') && s'.timers == 0
    ensures Doomed(s', t, f)
    decreases |actions|
  {
    hide Next, OneExecutes, BorrowMatches, Partitioned, TimersCounted, Links, Owners, Doomed;
    if actions != [] {
      var next := Next(s, actions[0]);
      NextControlled(s, actions[0]);
      TimersOnlyGrow(next, actions[1..], s');
      NextChained(s, actions[0]);
      NextDoomed(s, actions[0], t, f);
      RunsDoomed(next, actions[1..], s', t, f);
    }
  }

  /** A fiber stranded by a failed join stays so for good. */
  lemma StrandedForever(s: State, f: nat, actions: seq<Action>, s': State)
    requires Reachable(s) && s.timers == 0 && 0 < f && IsStranded(s, f)
    requires Runs(s, actions, s') && s'.timers == 0
    ensures f < |s'.fibers| && IsStranded(s', f) && s'.fibers[f].pc == s.fibers[f].pc
  {
    ReachableChained(s);
    assert s.fibers[f].pc.task !in s.tasks;
    hide Controlled, Chained, Runs;
    RunsDoomed(s, actions, s', s.fibers[f].pc.task, f);
    JoinedOnceDeadForever(s, actions, s');
  }

  lemma InterruptDooms(s: State, e: Error, t: nat)
    requires Controlled(s) && Chained(s) && s.rootPc == Joining && t in s.tasks && s.tasks[t].phase.Pending?
    ensures var r := Interrupt(s, e);
      r.rootPc == Idle && r.ret == Some(Err(e)) && !r.borrowed && r.runtimeOpen == s.runtimeOpen
      && r.tasks.Keys == s.tasks.Keys && Doomed(r, t, s.tasks[t].owner)
  {
    hide Links, OneExecutes, TasksAccounted, ParentsInRange, SendersInRange;
  }

  /** An interrupt, exactly: `run` returns its error with the set free and no task lost from it. Whatever
      is done afterwards, a task that was pending is never delivered and its fiber never runs again; and
      it does not keep a later `run` waiting: once the set has emptied or nothing can happen, the task
      has left it. */
  lemma InterruptedNeverResumes(s: State, e: Error, t: nat, actions: seq<Action>, s': State)
    requires Reachable(s) && s.timers == 0 && Enabled(s, Interrupted(e))
    requires t in s.tasks && s.tasks[t].phase.Pending?
    requires Runs(Next(s, Interrupted(e)), actions, s') && WellFormed(s') && s'.timers == 0
    ensures var r := Next(s, Interrupted(e));
      r.rootPc == Idle && r.ret == Some(Err(e)) && !r.borrowed && r.tasks.Keys == s.tasks.Keys
    ensures Doomed(s', t, s.tasks[t].owner)
    ensures s'.tasks == map[] || (s'.rootPc != Idle && !CanProgress(s')) ==> t in s'.joined && s'.joined[t] == JoinFailed
  {
    ReachableChained(s);
    var a := Interrupted(e);
    InterruptDooms(s, e, t);
    var r := Next(s, a);
    assert r == Interrupt(s, e);
    NextControlled(s, a);
    NextChained(s, a);
    OneActionReachable(s, a);
    hide Next, Interrupt, Controlled, Chained, Reachable, CanProgress, Runs;
    RunsDoomed(r, actions, s', t, s.tasks[t].owner);
    ReachableExtends(r, actions, s');
    if s'.rootPc != Idle && !CanProgress(s') && t in s'.tasks {
      DeadlockExactly(s');
    }
  }
}
