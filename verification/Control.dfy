/** Facts of every run, timers included: which fiber executes, who holds the task set, where every
    task ever spawned is. */
module Control {
  import opened Scripts
  import opened Machine

  ghost predicate OneExecutes(fibers: seq<Fiber>, current: nat) {
    forall f | 0 < f < |fibers| :: fibers[f].pc.Executing? <==> f == current
  }

  ghost predicate NoneExecutes(fibers: seq<Fiber>) {
    forall f | 0 < f < |fibers| :: !fibers[f].pc.Executing?
  }

  /** The task set is borrowed exactly while `run` awaits join_next or a poll is under way. */
  ghost predicate BorrowMatches(s: State) {
    && (s.borrowed <==> s.rootPc == Joining || s.rootPc.Polling?)
    && (s.current == ROOT <==> s.rootPc == Idle || s.rootPc == Joining)
    && (s.raised.Some? ==> s.current != ROOT)
    && (s.rootPc.Polling? ==> s.timers > 0 && s.rootPc.task in s.tasks && s.tasks[s.rootPc.task].phase.Pending?)
  }

  /** Every task spawned is in the set or has been joined, never both. */
  ghost predicate Partitioned(tasks: map<nat, Task>, joined: map<nat, Fate>, spawned: nat) {
    && (forall t | t in tasks :: t < spawned && t !in joined)
    && (forall t | t in joined :: t < spawned)
    && (forall t: nat | t < spawned :: t in tasks || t in joined)
  }

  ghost predicate TimersCounted(tasks: map<nat, Task>, timers: nat) {
    forall t | t in tasks && tasks[t].kind.Timer? :: timers > 0
  }

  ghost predicate TasksAccounted(s: State) {
    Partitioned(s.tasks, s.joined, s.spawned) && TimersCounted(s.tasks, s.timers)
  }

  ghost predicate Controlled(s: State) {
    WellFormed(s) && OneExecutes(s.fibers, s.current) && BorrowMatches(s) && TasksAccounted(s)
  }

  ghost predicate RootTransferring(s: State) {
    && s.rootPc != Idle && s.rootPc != Joining
    && (s.borrowed <==> s.rootPc.Polling?)
    && (s.rootPc.Polling? ==> s.timers > 0 && s.rootPc.task in s.tasks && s.tasks[s.rootPc.task].phase.Pending?)
  }

  /** What holds of a state in which control is about to leave the current fiber, whose pc is
      already the one it will be suspended with. */
  ghost predicate Leaving(s: State) {
    WellFormed(s) && NoneExecutes(s.fibers) && RootTransferring(s) && TasksAccounted(s)
  }

  lemma LeaveCurrent(s: State, pc: Pc)
    requires Controlled(s) && s.current != ROOT && !pc.Executing?
    ensures Leaving(WithPc(s, s.current, pc))
  {
    hide Partitioned, TimersCounted;
  }

  lemma ControlToRootControlled(s: State, res: Outcome)
    requires Leaving(s)
    ensures Controlled(ControlToRoot(s, res))
  {
    hide WellFormed, Partitioned;
    var r := ControlToRoot(s, res);
    match s.rootPc
    case Scheduling => assert Controlled(r);
    case Delivering => assert Controlled(r);
    case Polling(t) =>
      SameTasks(s.tasks, s.joined, s.spawned, t, s.tasks[t].(phase := Finished(res)));
      assert Controlled(r);
  }

  lemma SameTasks(tasks: map<nat, Task>, joined: map<nat, Fate>, spawned: nat, t: nat, task: Task)
    requires Partitioned(tasks, joined, spawned) && t in tasks
    ensures Partitioned(tasks[t := task], joined, spawned)
  {
  }

  /** What root makes of control coming back with `res`, by where it stood. In Fiber.schedule it returns
      `res`. In `run`'s transfer to a resumed fiber it goes round its loop after a value, and returns an
      error. In a timer's raise it ends the poll, and the timer's task with it, with `res`. */
  ghost predicate RootHears(s: State, r: State, res: Outcome) {
    && r.current == ROOT && r.raised.None? && r.runtimeOpen == s.runtimeOpen
    && match s.rootPc
       case Scheduling => r.rootPc == Idle && !r.borrowed && r.ret == Some(res)
       case Delivering =>
         if res.Err? then r.rootPc == Idle && !r.borrowed && r.ret == Some(res)
         else r.rootPc == Joining && r.borrowed && r.ret == s.ret && r.closing == s.closing
       case Polling(t) =>
         && r.rootPc == Joining && r.borrowed && r.ret == s.ret && r.closing == s.closing
         && t in s.tasks && t in r.tasks && r.tasks[t] == s.tasks[t].(phase := Finished(res))
       case _ => false
  }

  lemma ToRootHears(s: State, res: Outcome)
    requires WellFormed(s) && RootTransferring(s)
    ensures RootHears(s, ControlToRoot(s, res), res)
  {
    hide WellFormed;
    var r := ControlToRoot(s, res);
    match s.rootPc
    case Scheduling => assert RootHears(s, r, res);
    case Delivering => assert RootHears(s, r, res);
    case Polling(_) => assert RootHears(s, r, res);
  }

  lemma TerminateLeaves(s: State, f: nat)
    requires Leaving(s) && 0 < f < |s.fibers|
    ensures Leaving(WithPc(s, f, Terminated))
  {
    hide Partitioned, TimersCounted;
  }

  lemma ArriveControlled(s: State, f: nat, res: Outcome)
    requires Leaving(s) && 0 < f < |s.fibers| && !s.fibers[f].pc.Terminated?
    ensures Controlled(Arrive(s, f, res))
  {
    hide WellFormed, ControlToRoot, Logged, WithLeaf, Tail, Partitioned, TimersCounted;
    var r := Arrive(s, f, res);
    match s.fibers[f].pc
    case Parked =>
      TerminateLeaves(s, f);
      ControlToRootControlled(WithPc(s, f, Terminated), res);
      assert Controlled(r);
    case Awaiting(_) => assert Controlled(r);
    case Nesting(_) => assert Controlled(r);
    case Executing =>
  }

  lemma EndBodyControlled(s: State, res: Outcome)
    requires Controlled(s) && s.current != ROOT
    ensures Controlled(EndBody(s, res))
  {
    hide Arrive, ControlToRoot, WithVerdict, NoneExecutes, OneExecutes, BorrowMatches, Partitioned, TimersCounted;
    var f := s.current;
    LeaveCurrent(s, Terminated);
    LeaveCurrent(s, Parked);
    match s.fibers[f].parent
    case None =>
      var s1 := WithPc(s, f, Terminated);
      ControlToRootControlled(s1.(trees := WithVerdict(s.trees, s.fibers[f].tree, res)), res);
    case Some(p) =>
      match CheckSuspended(s, p)
      case Some(e) => ControlToRootControlled(WithPc(s, f, Terminated), Err(e));
      case None => ArriveControlled(WithPc(s, f, Parked), p, res);
  }

  lemma SpawnControlled(s: State, kind: Kind)
    requires Controlled(s) && s.current != ROOT && (kind.Blocking? ==> kind.chan < |s.chans|)
    ensures var (r, failed) := Spawn(s, kind);
      && r.current == s.current
      && (failed.None? && kind.Timer? ==> Controlled(r.(timers := s.timers + 1)))
      && (!kind.Timer? ==> Controlled(r))
  {
  }

  lemma SpawnAndTransferControlled(s: State, kind: Kind)
    requires Controlled(s) && s.current != ROOT && !kind.Timer? && (kind.Blocking? ==> kind.chan < |s.chans|)
    ensures Controlled(SpawnAndTransfer(s, kind))
  {
    hide ControlToRoot;
    SpawnControlled(s, kind);
    var (s1, failed) := Spawn(s, kind);
    if failed.Some? {
      ContinueControlled(s, Tail(s.fibers[s.current].cont), failed, [In(Err(failed.value))]);
    } else {
      LeaveCurrent(s1, Awaiting(s.spawned));
      ControlToRootControlled(WithPc(s1, s1.current, Awaiting(s.spawned)), Ok(Nil));
    }
  }

  lemma ContinueControlled(s: State, cont: seq<Item>, raised: Option<Error>, events: seq<Event>)
    requires Controlled(s) && s.current != ROOT
    ensures Controlled(Continue(s, cont, raised, events))
  {
  }

  lemma FiberImplControlled(s: State, body: seq<Op>)
    requires Controlled(s) && (s.current == ROOT ==> s.rootPc == Idle)
    ensures Controlled(FiberImpl(s, body))
  {
  }

  lemma BlockControlled(s: State, timed: bool)
    requires Controlled(s) && s.current != ROOT
    ensures Controlled(BlockCurrent(s, timed))
  {
    hide SpawnAndTransfer;
    var ch := |s.chans|;
    var lost := s.borrowed || !s.runtimeOpen;
    var chans := DropSender(s, s.current) + [Chan(s.current, if lost then Closed else Open)];
    SpawnAndTransferControlled(s.(blockers := s.blockers[s.current := ch], chans := chans), Blocking(ch, timed));
  }

  lemma UnblockControlled(s: State, target: nat)
    requires Controlled(s)
    ensures var r := UnblockFiber(s, target).0;
      Controlled(r) && r.current == s.current && r.rootPc == s.rootPc
  {
    UnblockFrame(s, target);
    hide UnblockFiber, Partitioned, TimersCounted, OneExecutes;
  }

  lemma UnblockFrame(s: State, target: nat)
    requires WellFormed(s)
    ensures var r := UnblockFiber(s, target).0;
      r == s.(blockers := r.blockers, chans := r.chans)
  {
    hide WellFormed, SetChan;
  }

  lemma StepControlled(s: State)
    requires Controlled(s) && s.current != ROOT
    ensures Controlled(Advance(s))
  {
    hide Continue, EndBody, FiberImpl, SpawnAndTransfer, BlockCurrent, UnblockFiber, Spawn, Unwind, OneExecutes, BorrowMatches, Partitioned, TimersCounted;
    var k := s.fibers[s.current].cont;
    if s.raised.Some? {
      match Unwind(k)
      case Some(h) => ContinueControlled(s, h, None, []);
      case None => EndBodyControlled(s, Err(s.raised.value));
    } else if k == [] {
      EndBodyControlled(s, Ok(Nil));
    } else {
      match k[0]
      case Catch(_) => ContinueControlled(s, k[1..], None, []);
      case Do(Emit(n)) => ContinueControlled(s, k[1..], None, [Out(n)]);
      case Do(Raise(e)) => ContinueControlled(s, k[1..], Some(e), []);
      case Do(Rescue(body, handler)) => ContinueControlled(s, Lift(body) + [Catch(handler)] + k[1..], None, []);
      case Do(Schedule(body)) => FiberImplControlled(s, body);
      case Do(Await) => SpawnAndTransferControlled(s, External);
      case Do(Block(timed)) => BlockControlled(s, timed);
      case Do(Unblock(target)) =>
        UnblockControlled(s, target);
        var (s1, res) := UnblockFiber(s, target);
        ContinueControlled(s1, Tail(s1.fibers[s1.current].cont), ErrorOf(res), [In(res)]);
      case Do(TimeoutAfter(body)) =>
        SpawnControlled(s, Timer);
        var (s1, failed) := Spawn(s, Timer);
        if failed.Some? {
          ContinueControlled(s, k[1..], failed, []);
        } else {
          ContinueControlled(s1.(timers := s.timers + 1), Lift(body) + k[1..], None, []);
        }
    }
  }

  lemma JoinControlled(s: State, t: nat)
    requires Controlled(s) && s.rootPc == Joining && t in s.tasks && !s.tasks[t].phase.Pending?
    ensures Controlled(Join(s, t))
  {
    hide Arrive;
    var task := s.tasks[t];
    var s1 := s.(borrowed := false, tasks := s.tasks - {t});
    if task.phase.Finished? && IsAlive(s, task.owner) {
      var s2 := s1.(joined := s.joined[t := Delivered(task.phase.res)], rootPc := Delivering);
      ArriveControlled(s2, task.owner, task.phase.res);
    }
  }

  lemma FireTimerControlled(s: State, t: nat)
    requires Controlled(s) && Enabled(s, TimerFires(t))
    ensures Controlled(FireTimer(s, t))
  {
    hide Arrive;
    if CheckSuspended(s, s.tasks[t].owner).None? {
      ArriveControlled(s.(rootPc := Polling(t)), s.tasks[t].owner, Err(TimedOut));
    }
  }

  /** The same tasks, belonging to the same fibers, at possibly other phases. */
  ghost predicate SameTaskSet(tasks: map<nat, Task>, tasks': map<nat, Task>) {
    && tasks'.Keys == tasks.Keys
    && (forall t | t in tasks :: tasks'[t].owner == tasks[t].owner && tasks'[t].kind == tasks[t].kind)
  }

  predicate IsEnvironment(a: Action) {
    a.TaskFinishes? || a.TaskPanics? || a.TaskCancelled? || a.Interrupted?
  }

  lemma FinishFrame(s: State, t: nat, res: Outcome)
    requires WellFormed(s) && t in s.tasks
    ensures var r := Finish(s, t, res);
      SameTaskSet(s.tasks, r.tasks) && r == s.(tasks := r.tasks, chans := r.chans, blockers := r.blockers)
  {
    hide ParentsInRange, TasksInRange, SendersInRange, DropSender, DropReceiver;
    var r := Finish(s, t, res);
    if s.tasks[t].kind.Blocking? {
      assert r == s.(tasks := r.tasks, chans := r.chans, blockers := r.blockers);
    } else {
      assert r == s.(tasks := r.tasks, chans := r.chans, blockers := r.blockers);
    }
  }

  lemma InterruptFrame(s: State, e: Error)
    requires WellFormed(s)
    ensures var r := Interrupt(s, e);
      SameTaskSet(s.tasks, r.tasks) &&
      r == s.(tasks := r.tasks, ret := r.ret, closing := r.closing, runtimeOpen := r.runtimeOpen, rootPc := Idle, borrowed := false)
  {
    hide ParentsInRange, TasksInRange, SendersInRange;
  }

  /** The environment changes the phase of tasks and the channels; only an interrupt ends `run`. */
  lemma EnvironmentFrame(s: State, a: Action)
    requires WellFormed(s) && Enabled(s, a) && IsEnvironment(a)
    ensures var r := Next(s, a);
      && SameTaskSet(s.tasks, r.tasks)
      && r == s.(tasks := r.tasks, chans := r.chans, blockers := r.blockers, ret := r.ret, closing := r.closing,
                 runtimeOpen := r.runtimeOpen, rootPc := if a.Interrupted? then Idle else Joining,
                 borrowed := if a.Interrupted? then false else s.borrowed)
  {
    hide FiberImpl, UnblockFiber, Advance, FireTimer, Join, BeginJoin, Finish, Interrupt, DropReceiver,
         ParentsInRange, TasksInRange, SendersInRange, ExitRun;
    match a
    case TaskFinishes(t, res) => FinishFrame(s, t, res);
    case Interrupted(e) => InterruptFrame(s, e);
    case TaskPanics(t) =>
    case TaskCancelled(t) =>
  }

  lemma EnvironmentControlled(s: State, a: Action)
    requires Controlled(s) && Enabled(s, a) && IsEnvironment(a)
    ensures Controlled(Next(s, a))
  {
    EnvironmentFrame(s, a);
    hide Next, OneExecutes;
  }

  lemma NextControlled(s: State, a: Action)
    requires Controlled(s) && Enabled(s, a)
    ensures Controlled(Next(s, a))
  {
    hide FiberImpl, UnblockFiber, Advance, FireTimer, Join, Finish, Crash, Interrupt, OneExecutes, Partitioned, TimersCounted;
    match a
    case RootSchedule(script) => FiberImplControlled(s, script);
    case RootUnblock(target) => UnblockControlled(s, target);
    case RootRun(closing) =>
    case SetEmpty =>
    case Step => StepControlled(s);
    case TaskJoined(t) => JoinControlled(s, t);
    case TimerFires(t) => FireTimerControlled(s, t);
    case _ => EnvironmentControlled(s, a);
  }

  /** The root fiber is suspended in a transfer or a raise of its own. */
  predicate RootSuspended(pc: RootPc) {
    pc.Scheduling? || pc.Delivering? || pc.Polling?
  }

  predicate FiberSuspended(pc: Pc) {
    pc.Awaiting? || pc.Nesting? || pc.Parked?
  }

  /** What check_suspended tells its caller, in every reachable state: it passes exactly for a fiber that
      stands in a transfer and can be transferred to, it says "not alive" exactly for a fiber that has
      terminated, and "active" exactly for the one that runs. */
  lemma SuspendedExactly(s: State, f: nat)
    requires Reachable(s) && f < |s.fibers|
    ensures CheckSuspended(s, f) == None <==> if f == ROOT then RootSuspended(s.rootPc) else FiberSuspended(s.fibers[f].pc)
    ensures CheckSuspended(s, f) == Some(FiberNotAlive) <==> f != ROOT && s.fibers[f].pc.Terminated?
    ensures CheckSuspended(s, f) == Some(FiberActive) <==>
      if f == ROOT then s.rootPc == Idle || s.rootPc == Joining else s.fibers[f].pc.Executing?
  {
    ReachableControlled(s);
  }

  lemma {:induction false} RunsControlled(s: State, actions: seq<Action>, s': State)
    requires Controlled(s) && Runs(s, actions, s')
    ensures Controlled(s')
    decreases |actions|
  {
    hide Next, OneExecutes, BorrowMatches, Partitioned, TimersCounted;
    if actions != [] {
      NextControlled(s, actions[0]);
      RunsControlled(Next(s, actions[0]), actions[1..], s');
    }
  }

  /** Every reachable state is controlled, whatever the blocks and the environment do. */
  lemma ReachableControlled(s: State)
    requires Reachable(s)
    ensures Controlled(s)
  {
    assert Controlled(Init());
    hide Init, Controlled;
    var actions :| Runs(Init(), actions, s);
    RunsControlled(Init(), actions, s);
  }
}
