/** `run` ends, or waits for an unblock that never comes.

    Every action other than the root program's own uses up `Work`, so no run of `run` is infinite;
    and what can keep it waiting, if external operations complete, is described exactly. */
module Progress {
  import opened Scripts
  import opened Machine
  import opened Control
  import opened WaitChains
  import opened Listeners

  function FiberWork(x: Fiber): nat {
    match x.pc
    case Executing => 2 + ContSize(x.cont)
    case Nesting(_) => 2 + ContSize(x.cont)
    case Awaiting(_) => 2 + ContSize(Tail(x.cont))
    case Parked => 0
    case Terminated => 0
  }

  function FibersWork(fs: seq<Fiber>): nat {
    if fs == [] then 0 else FiberWork(fs[0]) + FibersWork(fs[1..])
  }

  function PendingTasks(tasks: map<nat, Task>): set<nat> {
    set t | t in tasks && tasks[t].phase.Pending?
  }

  function TasksWork(tasks: map<nat, Task>): nat {
    2 * |tasks| + 2 * |PendingTasks(tasks)|
  }

  function RootWork(pc: RootPc): nat {
    if pc.Idle? || pc.Polling? then 0 else 2
  }

  function RaisedWork(raised: Option<Error>): nat {
    if raised.Some? then 1 else 0
  }

  /** What is left to do before control is back in the root program for good. */
  function Work(s: State): nat {
    FibersWork(s.fibers) + TasksWork(s.tasks) + RootWork(s.rootPc) + RaisedWork(s.raised)
  }

  predicate IsRootAction(a: Action) {
    a.RootSchedule? || a.RootUnblock? || a.RootRun?
  }

  // ---- sums -------------------------------------------------------------------------------

  lemma {:induction false} FibersWorkUpdate(fs: seq<Fiber>, f: nat, x: Fiber)
    requires f < |fs|
    ensures FibersWork(fs[f := x]) + FiberWork(fs[f]) == FibersWork(fs) + FiberWork(x)
  {
    if f == 0 {
      assert fs[f := x][1..] == fs[1..];
    } else {
      assert fs[f := x][1..] == fs[1..][f - 1 := x];
      FibersWorkUpdate(fs[1..], f - 1, x);
    }
  }

  lemma {:induction false} FibersWorkAppend(fs: seq<Fiber>, x: Fiber)
    ensures FibersWork(fs + [x]) == FibersWork(fs) + FiberWork(x)
  {
    if fs == [] {
      assert fs + [x] == [x] && [x][1..] == [];
    } else {
      assert (fs + [x])[1..] == fs[1..] + [x];
      FibersWorkAppend(fs[1..], x);
    }
  }

  lemma TasksWorkAdd(tasks: map<nat, Task>, t: nat, task: Task)
    requires t !in tasks
    ensures TasksWork(tasks[t := task]) <= TasksWork(tasks) + 4
  {
    var with := tasks[t := task];
    assert with.Keys == tasks.Keys + {t};
    if task.phase.Pending? {
      assert PendingTasks(with) == PendingTasks(tasks) + {t};
    } else {
      assert PendingTasks(with) == PendingTasks(tasks);
    }
  }

  lemma TasksWorkSettle(tasks: map<nat, Task>, t: nat, task: Task)
    requires t in tasks && tasks[t].phase.Pending? && !task.phase.Pending?
    ensures TasksWork(tasks[t := task]) == TasksWork(tasks) - 2
  {
    assert tasks[t := task].Keys == tasks.Keys;
    assert PendingTasks(tasks) == PendingTasks(tasks[t := task]) + {t};
  }

  lemma TasksWorkLeave(tasks: map<nat, Task>, t: nat)
    requires t in tasks && !tasks[t].phase.Pending?
    ensures TasksWork(tasks - {t}) == TasksWork(tasks) - 2
  {
    assert tasks.Keys == (tasks - {t}).Keys + {t};
    assert PendingTasks(tasks) == PendingTasks(tasks - {t});
  }

  lemma TasksWorkAbort(tasks: map<nat, Task>, tasks': map<nat, Task>)
    requires tasks'.Keys == tasks.Keys && forall t | t in tasks :: tasks'[t].phase == tasks[t].phase
    ensures TasksWork(tasks') == TasksWork(tasks)
  {
    assert |tasks| == |tasks.Keys| && |tasks'| == |tasks'.Keys|;
    assert PendingTasks(tasks') == PendingTasks(tasks);
  }

  // ---- every action uses up work ------------------------------------------------------------

  lemma ToRootWork(s: State, res: Outcome)
    requires Leaving(s)
    ensures Work(ControlToRoot(s, res)) <= Work(s) - RaisedWork(s.raised)
  {
    hide FibersWork, TasksWork, WellFormed, Partitioned, TimersCounted, NoneExecutes;
    if s.rootPc.Polling? {
      TasksWorkSettle(s.tasks, s.rootPc.task, s.tasks[s.rootPc.task].(phase := Finished(res)));
    }
  }

  lemma SwitchWork(s: State, r: State)
    requires r.tasks == s.tasks && r.rootPc == s.rootPc && FibersWork(r.fibers) == FibersWork(s.fibers)
    ensures Work(r) <= Work(s) - RaisedWork(s.raised) + 1
  {
  }

  lemma ResumeWork(s: State, f: nat, res: Outcome)
    requires WellFormed(s) && 0 < f < |s.fibers| && (s.fibers[f].pc.Awaiting? || s.fibers[f].pc.Nesting?)
    ensures Work(Arrive(s, f, res)) <= Work(s) - RaisedWork(s.raised) + 1
  {
    var x, r := s.fibers[f], Arrive(s, f, res);
    var y := x.(pc := Executing, cont := if x.pc.Awaiting? then Tail(x.cont) else x.cont);
    hide ControlToRoot, FibersWork, Logged, WithLeaf, ContSize, TasksWork, WellFormed;
    assert r.fibers == s.fibers[f := y] && r.tasks == s.tasks && r.rootPc == s.rootPc;
    assert FiberWork(y) == FiberWork(x);
    hide Arrive, FiberWork, Work;
    FibersWorkUpdate(s.fibers, f, y);
    SwitchWork(s, r);
  }

  lemma ArriveWork(s: State, f: nat, res: Outcome)
    requires Leaving(s) && 0 < f < |s.fibers| && !s.fibers[f].pc.Terminated?
    ensures Work(Arrive(s, f, res)) <= Work(s) - RaisedWork(s.raised) + 1
  {
    var x := s.fibers[f];
    assert !x.pc.Executing?;
    if x.pc.Parked? {
      TerminateLeaves(s, f);
      hide ControlToRoot, Leaving, FibersWork, TasksWork, ParentsInRange, TasksInRange, SendersInRange;
      FibersWorkUpdate(s.fibers, f, x.(pc := Terminated));
      ToRootWork(WithPc(s, f, Terminated), res);
    } else {
      hide Work, Arrive;
      ResumeWork(s, f, res);
    }
  }

  lemma EndBodyWork(s: State, res: Outcome)
    requires Controlled(s) && s.current != ROOT
    ensures Work(EndBody(s, res)) < Work(s)
  {
    LeaveCurrent(s, Terminated);
    LeaveCurrent(s, Parked);
    var f := s.current;
    assert s.fibers[f].pc.Executing?;
    FibersWorkUpdate(s.fibers, f, s.fibers[f].(pc := Terminated));
    FibersWorkUpdate(s.fibers, f, s.fibers[f].(pc := Parked));
    assert Work(WithPc(s, f, Terminated)) <= Work(s) - 2 && Work(WithPc(s, f, Parked)) <= Work(s) - 2;
    hide FibersWork, TasksWork, Arrive, ControlToRoot, Leaving, WithVerdict, OneExecutes, BorrowMatches, Partitioned, TimersCounted;
    match s.fibers[f].parent
    case None =>
      var s1 := WithPc(s, f, Terminated).(trees := WithVerdict(s.trees, s.fibers[f].tree, res));
      TreesDoNotMatter(WithPc(s, f, Terminated), s1);
      ToRootWork(s1, res);
    case Some(p) =>
      match CheckSuspended(s, p)
      case Some(e) => ToRootWork(WithPc(s, f, Terminated), Err(e));
      case None => ArriveWork(WithPc(s, f, Parked), p, res);
  }

  lemma TreesDoNotMatter(s: State, r: State)
    requires Leaving(s) && r == s.(trees := r.trees)
    ensures Leaving(r) && Work(r) == Work(s)
  {
  }

  lemma ContinueWork(s: State, cont: seq<Item>, raised: Option<Error>, events: seq<Event>)
    requires Controlled(s) && s.current != ROOT
    requires ContSize(cont) + RaisedWork(raised) < ContSize(s.fibers[s.current].cont) + RaisedWork(s.raised)
    ensures Work(Continue(s, cont, raised, events)) < Work(s)
  {
    var x := s.fibers[s.current];
    assert x.pc.Executing?;
    hide FibersWork, TasksWork, ContSize, Logged, BorrowMatches, Partitioned, TimersCounted;
    FibersWorkUpdate(s.fibers, s.current, x.(cont := cont));
  }

  lemma NestWork(s: State, body: seq<Op>)
    requires Controlled(s) && s.current != ROOT && s.raised.None?
    requires s.fibers[s.current].cont != [] && s.fibers[s.current].cont[0] == Do(Schedule(body))
    ensures Work(FiberImpl(s, body)) < Work(s)
  {
    var f, c := s.current, |s.fibers|;
    var x := s.fibers[f];
    assert x.pc.Executing?;
    var y := x.(pc := Nesting(c), cont := Tail(x.cont));
    ContSizeLift(body);
    FibersWorkUpdate(s.fibers, f, y);
    FibersWorkAppend(s.fibers[f := y], Fiber(Executing, Lift(body), Some(f), x.tree));
    hide FibersWork, TasksWork, Lift, WithLeaf, BorrowMatches, Partitioned, TimersCounted;
  }

  /** Suspending in a hook costs the operation and adds a task. */
  lemma HookWork(s: State, kind: Kind)
    requires Controlled(s) && s.current != ROOT && s.raised.None? && !kind.Timer? && (kind.Blocking? ==> kind.chan < |s.chans|)
    requires s.fibers[s.current].cont != [] && Suspends(s.fibers[s.current].cont[0])
    ensures Work(SpawnAndTransfer(s, kind)) < Work(s)
  {
    var f, k := s.current, s.fibers[s.current].cont;
    assert s.fibers[f].pc.Executing? && ContSize(k) == 7 + ContSize(k[1..]);
    if s.borrowed {
      hide Continue, Work;
      ContinueWork(s, Tail(k), Some(AlreadyBorrowed), [In(Err(AlreadyBorrowed))]);
    } else {
      var task := Task(f, kind, if s.runtimeOpen then Pending else Crashed, false);
      var s1 := Spawn(s, kind).0;
      assert s.spawned !in s.tasks;
      SpawnControlled(s, kind);
      LeaveCurrent(s1, Awaiting(s.spawned));
      TasksWorkAdd(s.tasks, s.spawned, task);
      FibersWorkUpdate(s.fibers, f, s.fibers[f].(pc := Awaiting(s.spawned)));
      var s2 := WithPc(s1, f, Awaiting(s.spawned));
      assert Work(s2) < Work(s);
      hide Work, Leaving, ControlToRoot;
      ToRootWork(s2, Ok(Nil));
    }
  }

  lemma BlockWork(s: State, timed: bool)
    requires Controlled(s) && s.current != ROOT && s.raised.None?
    requires s.fibers[s.current].cont != [] && s.fibers[s.current].cont[0] == Do(Block(timed))
    ensures Work(BlockCurrent(s, timed)) < Work(s)
  {
    hide SpawnAndTransfer, DropSender, OneExecutes, Partitioned, TimersCounted, FibersWork, TasksWork;
    var ch := |s.chans|;
    var lost := s.borrowed || !s.runtimeOpen;
    var chans := DropSender(s, s.current) + [Chan(s.current, if lost then Closed else Open)];
    HookWork(s.(blockers := s.blockers[s.current := ch], chans := chans), Blocking(ch, timed));
  }

  lemma UnblockWork(s: State, target: nat)
    requires Controlled(s) && s.current != ROOT && s.raised.None?
    requires s.fibers[s.current].cont != [] && s.fibers[s.current].cont[0] == Do(Unblock(target))
    ensures var (s1, res) := UnblockFiber(s, target); Work(HookReturns(s1, res)) < Work(s)
  {
    UnblockControlled(s, target);
    UnblockFrame(s, target);
    var (s1, res) := UnblockFiber(s, target);
    var k := s.fibers[s.current].cont;
    assert ContSize(k) == 2 + ContSize(k[1..]);
    assert Work(s1) == Work(s);
    hide UnblockFiber, Continue, Work, ContSize, Controlled;
    ContinueWork(s1, k[1..], ErrorOf(res), [In(res)]);
  }

  lemma TimeoutWork(s: State, body: seq<Op>)
    requires Controlled(s) && s.current != ROOT && s.raised.None?
    requires s.fibers[s.current].cont != [] && s.fibers[s.current].cont[0] == Do(TimeoutAfter(body))
    ensures Work(Advance(s)) < Work(s)
  {
    var f, k := s.current, s.fibers[s.current].cont;
    var x := s.fibers[f];
    assert x.pc.Executing? && ContSize(k) == Size(body) + 6 + ContSize(k[1..]);
    PushSize(body, k[1..]);
    assert s.spawned !in s.tasks;
    TasksWorkAdd(s.tasks, s.spawned, Task(f, Timer, if s.runtimeOpen then Pending else Crashed, false));
    FibersWorkUpdate(s.fibers, f, x.(cont := Lift(body) + k[1..]));
    FibersWorkUpdate(s.fibers, f, x.(cont := k[1..]));
    hide FibersWork, TasksWork, ContSize, Lift, Logged, WellFormed, OneExecutes, Partitioned, TimersCounted, BorrowMatches,
         EndBody, FiberImpl, SpawnAndTransfer, BlockCurrent, UnblockFiber, Unwind;
  }

  /** The operations that only rewrite what is left of the current fiber. */
  lemma UnfoldWork(s: State)
    requires Controlled(s) && s.current != ROOT && s.raised.None?
    requires var k := s.fibers[s.current].cont;
      k != [] && (k[0].Catch? || k[0].op.Emit? || k[0].op.Raise? || k[0].op.Rescue?)
    ensures Work(Advance(s)) < Work(s)
  {
    assert WellFormed(s);
    var k := s.fibers[s.current].cont;
    hide Continue, EndBody, FiberImpl, SpawnAndTransfer, BlockCurrent, UnblockFiber, Unwind, Work, Controlled;
    match k[0]
    case Do(Rescue(body, handler)) =>
      ProtectSize(body, handler, k[1..]);
      ContinueWork(s, Lift(body) + [Catch(handler)] + k[1..], None, []);
    case Do(Emit(n)) => ContinueWork(s, k[1..], None, [Out(n)]);
    case Do(Raise(e)) => ContinueWork(s, k[1..], Some(e), []);
    case Catch(_) => ContinueWork(s, k[1..], None, []);
  }

  lemma StepWork(s: State)
    requires Controlled(s) && s.current != ROOT
    ensures Work(Advance(s)) < Work(s)
  {
    assert WellFormed(s);
    var k := s.fibers[s.current].cont;
    hide Continue, EndBody, FiberImpl, SpawnAndTransfer, BlockCurrent, HookReturns, Unwind, Work, Controlled, ContSize;
    if s.raised.Some? {
      UnwindSize(k);
      match Unwind(k)
      case Some(h) => ContinueWork(s, h, None, []);
      case None => EndBodyWork(s, Err(s.raised.value));
    } else if k == [] {
      EndBodyWork(s, Ok(Nil));
    } else {
      match k[0]
      case Do(Schedule(body)) => NestWork(s, body);
      case Do(Await) => HookWork(s, External);
      case Do(Block(timed)) => BlockWork(s, timed);
      case Do(Unblock(target)) => UnblockWork(s, target);
      case Do(TimeoutAfter(body)) => TimeoutWork(s, body);
      case _ => UnfoldWork(s);
    }
  }

  lemma JoinWork(s: State, t: nat)
    requires Controlled(s) && s.rootPc == Joining && t in s.tasks && !s.tasks[t].phase.Pending?
    ensures Work(Join(s, t)) < Work(s)
  {
    var task := s.tasks[t];
    TasksWorkLeave(s.tasks, t);
    hide FibersWork, TasksWork, Arrive, ParentsInRange, TasksInRange, SendersInRange;
    if task.phase.Finished? && IsAlive(s, task.owner) {
      var s2 := s.(borrowed := false, tasks := s.tasks - {t}, joined := s.joined[t := Delivered(task.phase.res)], rootPc := Delivering);
      assert Leaving(s2);
      ArriveWork(s2, task.owner, task.phase.res);
    }
  }

  lemma FireTimerWork(s: State, t: nat)
    requires Controlled(s) && Enabled(s, TimerFires(t))
    ensures Work(FireTimer(s, t)) < Work(s)
  {
    var f := s.tasks[t].owner;
    hide FibersWork, TasksWork, Arrive, ParentsInRange, TasksInRange, SendersInRange;
    match CheckSuspended(s, f)
    case Some(e) => TasksWorkSettle(s.tasks, t, s.tasks[t].(phase := Finished(Err(e))));
    case None =>
      var s1 := s.(rootPc := Polling(t));
      assert Leaving(s1);
      ArriveWork(s1, f, Err(TimedOut));
  }

  lemma EnvironmentWork(s: State, a: Action)
    requires Controlled(s) && Enabled(s, a) && IsEnvironment(a)
    ensures Work(Next(s, a)) < Work(s)
  {
    EnvironmentFrame(s, a);
    var r := Next(s, a);
    match a
    case TaskFinishes(t, res) => TasksWorkSettle(s.tasks, t, s.tasks[t].(phase := Finished(res)));
    case TaskPanics(t) => TasksWorkSettle(s.tasks, t, s.tasks[t].(phase := Crashed));
    case TaskCancelled(t) => TasksWorkSettle(s.tasks, t, s.tasks[t].(phase := Crashed));
    case Interrupted(e) => TasksWorkAbort(s.tasks, r.tasks);
  }

  lemma NextWork(s: State, a: Action)
    requires Controlled(s) && Enabled(s, a) && !IsRootAction(a)
    ensures Work(Next(s, a)) < Work(s)
  {
    assert WellFormed(s);
    hide Advance, Join, FireTimer, Finish, Crash, Interrupt, Controlled, FibersWork, TasksWork;
    match a
    case Step => StepWork(s);
    case TaskJoined(t) => JoinWork(s, t);
    case TimerFires(t) => FireTimerWork(s, t);
    case SetEmpty =>
    case _ => EnvironmentWork(s, a);
  }

  /** No run of the scheduler and its environment outlives the work there was, timers included. */
  lemma {:induction false} RunsAreBounded(s: State, actions: seq<Action>, s': State)
    requires Controlled(s) && Runs(s, actions, s')
    requires forall i | 0 <= i < |actions| :: !IsRootAction(actions[i])
    ensures |actions| + Work(s') <= Work(s)
    decreases |actions|
  {
    hide Next, OneExecutes, BorrowMatches, Partitioned, TimersCounted, Work;
    if actions != [] {
      NextControlled(s, actions[0]);
      NextWork(s, actions[0]);
      RunsAreBounded(Next(s, actions[0]), actions[1..], s');
    }
  }

  // ---- what can keep `run` waiting ------------------------------------------------------------

  /** Something other than an interrupt or a panic can happen; an external operation always can. */
  ghost predicate CanProgress(s: State)
    requires WellFormed(s)
  {
    exists a :: Enabled(s, a) && !IsRootAction(a) && !a.Interrupted? && !a.TaskPanics?
  }

  /** Tasks remain, and each is a block with no timeout that nobody has unblocked. */
  ghost predicate OnlyHopelessBlocks(s: State)
    requires WellFormed(s)
  {
    && s.rootPc == Joining && s.tasks != map[]
    && forall t | t in s.tasks :: HopelessBlock(s, t)
  }

  ghost predicate HopelessBlock(s: State, t: nat)
    requires WellFormed(s) && t in s.tasks
  {
    && s.tasks[t].phase.Pending? && !s.tasks[t].aborted
    && s.tasks[t].kind.Blocking? && !s.tasks[t].kind.timed
    && s.chans[s.tasks[t].kind.chan].state == Open
  }

  /** Deadlock, exactly, in every run, timers included: while `run` has not returned, nothing can happen
      if and only if every task left is an unsignalled block without a timeout. */
  lemma DeadlockExactly(s: State)
    requires Reachable(s) && s.rootPc != Idle
    ensures !CanProgress(s) <==> OnlyHopelessBlocks(s)
  {
    ReachableListening(s);
    hide Apart, Held, Entries, OneExecutes, TasksAccounted;
    if s.current != ROOT {
      assert Enabled(s, Step);
    } else if s.tasks == map[] {
      assert Enabled(s, SetEmpty);
    } else if !OnlyHopelessBlocks(s) {
      var t :| t in s.tasks && !HopelessBlock(s, t);
      TaskCanProgress(s, t);
    } else {
      forall a | Enabled(s, a) ensures IsRootAction(a) || a.Interrupted? || a.TaskPanics? {
        if a.TaskFinishes? || a.TaskCancelled? || a.TaskJoined? || a.TimerFires? {
          assert HopelessBlock(s, a.task);
        }
      }
    }
  }

  lemma TaskCanProgress(s: State, t: nat)
    requires Controlled(s) && Live(Blocks(s.tasks), s.chans)
    requires s.rootPc == Joining && t in s.tasks && !HopelessBlock(s, t)
    ensures CanProgress(s)
  {
    var task := s.tasks[t];
    assert PendingBlock(task) ==> t in Blocks(s.tasks);
    if !task.phase.Pending? {
      assert Enabled(s, TaskJoined(t));
    } else if task.aborted {
      assert Enabled(s, TaskCancelled(t));
    } else if task.kind.External? {
      assert Enabled(s, TaskFinishes(t, Ok(Nil)));
    } else if task.kind.Timer? {
      assert Enabled(s, TimerFires(t));
    } else if s.chans[task.kind.chan].state == Signalled {
      assert Enabled(s, TaskFinishes(t, Ok(True)));
    } else if s.chans[task.kind.chan].state == Orphaned {
      assert Enabled(s, TaskFinishes(t, Err(SenderDropped)));
    } else {
      assert Enabled(s, TaskFinishes(t, Err(TimedOut)));
    }
  }

  /** Any run that goes on until nothing can happen is finite, and ends with `run` returned or
      deadlocked on blocks nobody unblocks. */
  lemma RunReturnsOrDeadlocks(s: State, actions: seq<Action>, s': State)
    requires Reachable(s) && Runs(s, actions, s') && WellFormed(s')
    requires forall i | 0 <= i < |actions| :: !IsRootAction(actions[i])
    requires !CanProgress(s')
    ensures |actions| <= Work(s)
    ensures s'.rootPc == Idle || OnlyHopelessBlocks(s')
  {
    ReachableControlled(s);
    RunsAreBounded(s, actions, s');
    ReachableExtends(s, actions, s');
    if s'.rootPc != Idle {
      DeadlockExactly(s');
    }
  }

  lemma OneActionReachable(s: State, a: Action)
    requires Reachable(s) && Enabled(s, a)
    ensures Reachable(Next(s, a))
  {
    hide Next, Enabled;
    assert [a][1..] == [];
    assert Runs(Next(s, a), [], Next(s, a));
    ReachableExtends(s, [a], Next(s, a));
  }

  lemma ReachableExtends(s: State, actions: seq<Action>, s': State)
    requires Reachable(s) && Runs(s, actions, s')
    ensures Reachable(s')
  {
    hide Next, Enabled;
    RunsWellFormed(s, actions, s');
    var before :| Runs(Init(), before, s);
    RunsConcat(Init(), before, s, actions, s');
  }
}
