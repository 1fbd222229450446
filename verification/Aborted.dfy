/** What an abort does to a task, whatever its kind and whatever timers do: it can only fail to join. */
module Aborted {
  import opened Scripts
  import opened Machine
  import opened Control
  import opened WaitChains

  /** Task `t` is aborted or crashed, or has failed to join, and is not being polled. */
  ghost predicate Spoilt(s: State, t: nat) {
    && s.rootPc != Polling(t)
    && (if t in s.tasks then s.tasks[t].phase.Crashed? || (s.tasks[t].phase.Pending? && s.tasks[t].aborted)
        else t in s.joined && s.joined[t] == JoinFailed)
  }

  ghost predicate LeavesAlone(s: State, r: State, t: nat) {
    && r.rootPc != Polling(t)
    && (t in r.tasks <==> t in s.tasks) && (t in s.tasks ==> r.tasks[t] == s.tasks[t])
    && (t in s.joined ==> t in r.joined && r.joined[t] == s.joined[t])
  }

  lemma StaysSpoilt(s: State, r: State, t: nat)
    requires Spoilt(s, t) && LeavesAlone(s, r, t)
    ensures Spoilt(r, t)
  {
  }

  lemma ToRootLeaves(s: State, q: State, res: Outcome, t: nat)
    requires WellFormed(q) && LeavesAlone(s, q, t)
    ensures LeavesAlone(s, ControlToRoot(q, res), t)
  {
    if q.rootPc.Polling? {
      hide WellFormed;
      match q.rootPc
      case Polling(_) => assert LeavesAlone(s, ControlToRoot(q, res), t);
    } else {
      ToRootFrame(q, res);
      ToRootNotPolling(q, res);
      hide WellFormed, ControlToRoot;
    }
  }

  lemma ToRootNotPolling(q: State, res: Outcome)
    requires WellFormed(q) && !q.rootPc.Polling?
    ensures !ControlToRoot(q, res).rootPc.Polling?
  {
    hide WellFormed;
    var r := ControlToRoot(q, res);
    match q.rootPc
    case Idle => assert !r.rootPc.Polling?;
    case Scheduling => assert !r.rootPc.Polling?;
    case Joining => assert !r.rootPc.Polling?;
    case Delivering => assert !r.rootPc.Polling?;
  }

  lemma ArriveLeaves(s: State, q: State, f: nat, res: Outcome, t: nat)
    requires WellFormed(q) && LeavesAlone(s, q, t) && 0 < f < |q.fibers|
    ensures LeavesAlone(s, Arrive(q, f, res), t)
  {
    hide ControlToRoot, WellFormed, Logged, WithLeaf;
    ToRootLeaves(s, WithPc(q, f, Terminated), res, t);
    var r := Arrive(q, f, res);
    match q.fibers[f].pc
    case Awaiting(_) => assert LeavesAlone(s, r, t);
    case Nesting(_) => assert LeavesAlone(s, r, t);
    case Parked => assert LeavesAlone(s, r, t);
    case Executing => assert LeavesAlone(s, r, t);
    case Terminated => assert LeavesAlone(s, r, t);
  }

  lemma EndBodyLeaves(s: State, res: Outcome, t: nat)
    requires WellFormed(s) && s.rootPc != Polling(t) && s.current != ROOT
    ensures LeavesAlone(s, EndBody(s, res), t)
  {
    var f, q := s.current, EndBody(s, res);
    var s1 := WithPc(s, f, Terminated).(trees := WithVerdict(s.trees, s.fibers[f].tree, res));
    assert LeavesAlone(s, s1, t) && LeavesAlone(s, WithPc(s, f, Terminated), t) && LeavesAlone(s, WithPc(s, f, Parked), t);
    assert s.fibers[f].parent.Some? ==> 0 < s.fibers[f].parent.value < f;
    hide ControlToRoot, Arrive, ParentsInRange, TasksInRange, SendersInRange, WithVerdict, LeavesAlone;
    match s.fibers[f].parent
    case None => ToRootLeaves(s, s1, res, t); assert LeavesAlone(s, q, t);
    case Some(p) =>
      match CheckSuspended(s, p)
      case Some(e) => ToRootLeaves(s, WithPc(s, f, Terminated), Err(e), t); assert LeavesAlone(s, q, t);
      case None => ArriveLeaves(s, WithPc(s, f, Parked), p, res, t); assert LeavesAlone(s, q, t);
  }

  lemma ContinueLeaves(s: State, q: State, cont: seq<Item>, raised: Option<Error>, events: seq<Event>, t: nat)
    requires WellFormed(q) && LeavesAlone(s, q, t)
    ensures LeavesAlone(s, Continue(q, cont, raised, events), t)
  {
  }

  lemma NestLeaves(s: State, body: seq<Op>, t: nat)
    requires WellFormed(s) && s.rootPc != Polling(t)
    ensures LeavesAlone(s, FiberImpl(s, body), t)
  {
    hide WithLeaf, Lift, Tail, ParentsInRange, TasksInRange, SendersInRange;
  }

  lemma HookLeaves(s: State, q: State, kind: Kind, t: nat)
    requires WellFormed(q) && q.current != ROOT && (kind.Blocking? ==> kind.chan < |q.chans|)
    requires LeavesAlone(s, q, t) && t != q.spawned
    ensures LeavesAlone(s, SpawnAndTransfer(q, kind), t)
  {
    hide ControlToRoot, Continue, ParentsInRange, TasksInRange, SendersInRange;
    var (q1, failed) := Spawn(q, kind);
    if failed.Some? {
      ContinueLeaves(s, q, Tail(q.fibers[q.current].cont), failed, [In(Err(failed.value))], t);
    } else {
      ToRootLeaves(s, WithPc(q1, q1.current, Awaiting(q.spawned)), Ok(Nil), t);
    }
  }

  lemma BlockLeaves(s: State, timed: bool, t: nat)
    requires WellFormed(s) && s.current != ROOT && s.rootPc != Polling(t) && t != s.spawned
    ensures LeavesAlone(s, BlockCurrent(s, timed), t)
  {
    var ch := |s.chans|;
    var lost := s.borrowed || !s.runtimeOpen;
    var chans := DropSender(s, s.current) + [Chan(s.current, if lost then Closed else Open)];
    var s1 := s.(blockers := s.blockers[s.current := ch], chans := chans);
    assert LeavesAlone(s, s1, t) && WellFormed(s1);
    hide SpawnAndTransfer, LeavesAlone, DropSender;
    HookLeaves(s, s1, Blocking(ch, timed), t);
  }

  lemma UnblockLeaves(s: State, target: nat, t: nat)
    requires WellFormed(s) && s.rootPc != Polling(t)
    ensures LeavesAlone(s, UnblockFiber(s, target).0, t)
  {
    UnblockFrame(s, target);
    hide UnblockFiber, WellFormed;
  }

  /** The operations that only rewrite what is left of the current fiber. */
  lemma UnfoldLeaves(s: State, t: nat)
    requires WellFormed(s) && s.current != ROOT && s.raised.None? && s.rootPc != Polling(t)
    requires var k := s.fibers[s.current].cont;
      k != [] && (k[0].Catch? || k[0].op.Emit? || k[0].op.Raise? || k[0].op.Rescue?)
    ensures LeavesAlone(s, Advance(s), t)
  {
    var k := s.fibers[s.current].cont;
    assert LeavesAlone(s, s, t);
    hide Continue, EndBody, FiberImpl, SpawnAndTransfer, BlockCurrent, UnblockFiber, Spawn, Unwind, Lift, LeavesAlone, WellFormed;
    match k[0]
    case Do(Rescue(body, handler)) => ContinueLeaves(s, s, Lift(body) + [Catch(handler)] + k[1..], None, [], t);
    case Do(Emit(n)) => ContinueLeaves(s, s, k[1..], None, [Out(n)], t);
    case Do(Raise(e)) => ContinueLeaves(s, s, k[1..], Some(e), [], t);
    case Catch(_) => ContinueLeaves(s, s, k[1..], None, [], t);
  }

  lemma TimeoutLeaves(s: State, body: seq<Op>, t: nat)
    requires WellFormed(s) && s.current != ROOT && s.raised.None? && s.rootPc != Polling(t) && t != s.spawned
    requires s.fibers[s.current].cont != [] && s.fibers[s.current].cont[0] == Do(TimeoutAfter(body))
    ensures LeavesAlone(s, Advance(s), t)
  {
    var k := s.fibers[s.current].cont;
    var (s1, failed) := Spawn(s, Timer);
    assert LeavesAlone(s, s1.(timers := s.timers + 1), t) && LeavesAlone(s, s, t);
    hide Continue, EndBody, FiberImpl, SpawnAndTransfer, BlockCurrent, UnblockFiber, Unwind, Lift, LeavesAlone,
         ParentsInRange, TasksInRange, SendersInRange;
    if failed.Some? {
      ContinueLeaves(s, s, k[1..], failed, [], t);
    } else {
      ContinueLeaves(s, s1.(timers := s.timers + 1), Lift(body) + k[1..], None, [], t);
    }
  }

  lemma StepLeaves(s: State, t: nat)
    requires WellFormed(s) && s.current != ROOT && s.rootPc != Polling(t) && t != s.spawned
    ensures LeavesAlone(s, Advance(s), t)
  {
    var k := s.fibers[s.current].cont;
    assert LeavesAlone(s, s, t);
    hide Continue, EndBody, FiberImpl, SpawnAndTransfer, BlockCurrent, UnblockFiber, Unwind, Spawn, Lift, LeavesAlone,
         ParentsInRange, TasksInRange, SendersInRange;
    if s.raised.Some? {
      if Unwind(k).Some? { ContinueLeaves(s, s, Unwind(k).value, None, [], t); } else { EndBodyLeaves(s, Err(s.raised.value), t); }
    } else if k == [] {
      EndBodyLeaves(s, Ok(Nil), t);
    } else {
      match k[0]
      case Do(Schedule(body)) => NestLeaves(s, body, t);
      case Do(Await) => HookLeaves(s, s, External, t);
      case Do(Block(timed)) => BlockLeaves(s, timed, t);
      case Do(Unblock(target)) =>
        UnblockLeaves(s, target, t);
        var (s1, res) := UnblockFiber(s, target);
        ContinueLeaves(s, s1, Tail(s1.fibers[s1.current].cont), ErrorOf(res), [In(res)], t);
      case Do(TimeoutAfter(body)) => TimeoutLeaves(s, body, t);
      case _ => UnfoldLeaves(s, t);
    }
  }

  lemma JoinSpoilt(s: State, u: nat, t: nat)
    requires Controlled(s) && Spoilt(s, t) && Enabled(s, TaskJoined(u))
    ensures Spoilt(Join(s, u), t)
  {
    var task := s.tasks[u];
    if u == t {
      hide OneExecutes, TasksAccounted, Arrive, ParentsInRange, TasksInRange, SendersInRange;
    } else {
      assert 0 < task.owner < |s.fibers|;
      hide OneExecutes, TasksAccounted, Arrive, ParentsInRange, TasksInRange, SendersInRange;
      if task.phase.Finished? && IsAlive(s, task.owner) {
        var s1 := s.(borrowed := false, tasks := s.tasks - {u}, joined := s.joined[u := Delivered(task.phase.res)], rootPc := Delivering);
        ArriveLeaves(s, s1, task.owner, task.phase.res, t);
      }
    }
  }

  lemma TimerSpoilt(s: State, u: nat, t: nat)
    requires Controlled(s) && Spoilt(s, t) && Enabled(s, TimerFires(u))
    ensures Spoilt(FireTimer(s, u), t)
  {
    assert u != t;
    var f := s.tasks[u].owner;
    hide OneExecutes, TasksAccounted, Arrive, ParentsInRange, SendersInRange;
    if CheckSuspended(s, f).None? {
      ArriveLeaves(s, s.(rootPc := Polling(u)), f, Err(TimedOut), t);
    }
  }

  lemma EnvironmentSpoilt(s: State, a: Action, t: nat)
    requires WellFormed(s) && Spoilt(s, t) && Enabled(s, a) && IsEnvironment(a)
    ensures Spoilt(Next(s, a), t)
  {
    EnvironmentFrame(s, a);
    hide DropReceiver, DropSender, ParentsInRange, TasksInRange, SendersInRange, FiberImpl, UnblockFiber, Advance, FireTimer,
         Join, BeginJoin;
  }

  lemma NextSpoilt(s: State, a: Action, t: nat)
    requires Controlled(s) && Spoilt(s, t) && Enabled(s, a)
    ensures Spoilt(Next(s, a), t)
  {
    assert WellFormed(s) && t != s.spawned;
    hide Advance, FiberImpl, UnblockFiber, Join, FireTimer, Finish, Crash, Interrupt, Controlled,
         ParentsInRange, TasksInRange, SendersInRange;
    match a
    case RootSchedule(script) => NestLeaves(s, script, t);
    case RootUnblock(target) => UnblockLeaves(s, target, t);
    case Step => StepLeaves(s, t);
    case TaskJoined(u) => JoinSpoilt(s, u, t);
    case TimerFires(u) => TimerSpoilt(s, u, t);
    case RootRun(closing) =>
    case SetEmpty =>
    case _ => EnvironmentSpoilt(s, a, t);
  }

  lemma {:induction false} RunsSpoilt(s: State, actions: seq<Action>, s': State, t: nat)
    requires Controlled(s) && Spoilt(s, t) && Runs(s, actions, s')
    ensures Controlled(s') && Spoilt(s', t)
    decreases |actions|
  {
    hide Next, OneExecutes, BorrowMatches, TasksAccounted, Spoilt;
    if actions != [] {
      NextControlled(s, actions[0]);
      NextSpoilt(s, actions[0], t);
      RunsSpoilt(Next(s, actions[0]), actions[1..], s', t);
    }
  }

  /** An abort is final. In every state after an interrupt, in any run, a task that was pending has failed
      to join or still can only fail to join: its future never ends, its timer never raises, and it is
      never delivered and never dropped. */
  lemma AbortedOnlyFails(s: State, e: Error, t: nat, actions: seq<Action>, s': State)
    requires Controlled(s) && Enabled(s, Interrupted(e)) && t in s.tasks && s.tasks[t].phase.Pending?
    requires Runs(Next(s, Interrupted(e)), actions, s')
    ensures WellFormed(s') && Spoilt(s', t)
    ensures !Enabled(s', TimerFires(t)) && forall res :: !Enabled(s', TaskFinishes(t, res))
    ensures t !in s'.tasks ==> t in s'.joined && s'.joined[t] == JoinFailed
  {
    NextControlled(s, Interrupted(e));
    var r := Next(s, Interrupted(e));
    assert Spoilt(r, t) by { hide OneExecutes, TasksAccounted, ParentsInRange, TasksInRange, SendersInRange; }
    hide Next, Runs, OneExecutes, TasksAccounted;
    RunsSpoilt(r, actions, s', t);
  }
}
