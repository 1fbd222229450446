/** What timeout_after can and cannot do. Timers are allowed throughout.

    A timer is never cancelled. After its fiber has terminated it is harmless, and so is any other
    task the fiber left behind. While the fiber lives it is not: the timer raises in the fiber in the
    middle of a poll, with the task set still borrowed. */
module DeadFibers {
  import opened Scripts
  import opened Machine
  import opened Control
  import opened Progress

  ghost predicate FatesKept(joined: map<nat, Fate>, joined': map<nat, Fate>) {
    forall t | t in joined :: t in joined' && joined'[t] == joined[t]
  }

  /** The dead stay dead, and a fiber whose nested block is complete can only die. */
  ghost predicate DeadStay(fs: seq<Fiber>, gs: seq<Fiber>) {
    && |fs| <= |gs|
    && (forall f | 0 < f < |fs| && fs[f].pc.Terminated? :: gs[f].pc.Terminated?)
    && (forall f | 0 < f < |fs| && fs[f].pc.Parked? :: gs[f].pc.Parked? || gs[f].pc.Terminated?)
  }

  /** Nothing that was joined changes its fate, and no fiber that is done comes back. */
  ghost predicate Carries(s: State, r: State) {
    FatesKept(s.joined, r.joined) && DeadStay(s.fibers, r.fibers)
  }

  lemma ToRootKeeps(s: State, res: Outcome)
    requires WellFormed(s)
    ensures var r := ControlToRoot(s, res); r.fibers == s.fibers && r.joined == s.joined
  {
    hide WellFormed;
    var r := ControlToRoot(s, res);
    match s.rootPc
    case Idle => assert r.fibers == s.fibers && r.joined == s.joined;
    case Scheduling => assert r.fibers == s.fibers && r.joined == s.joined;
    case Joining => assert r.fibers == s.fibers && r.joined == s.joined;
    case Delivering => assert r.fibers == s.fibers && r.joined == s.joined;
    case Polling(_) => assert r.fibers == s.fibers && r.joined == s.joined;
  }

  lemma ToRootCarries(s: State, r: State, res: Outcome)
    requires WellFormed(r) && Carries(s, r)
    ensures Carries(s, ControlToRoot(r, res))
  {
    ToRootKeeps(r, res);
    hide WellFormed, FatesKept, DeadStay, ControlToRoot;
  }

  lemma WakeStay(fs: seq<Fiber>, gs: seq<Fiber>, f: nat, x: Fiber)
    requires DeadStay(fs, gs) && f < |gs| && !gs[f].pc.Terminated? && (gs[f].pc.Parked? ==> x.pc.Terminated?)
    ensures DeadStay(fs, gs[f := x])
  {
  }

  lemma ArriveCarries(s: State, r: State, f: nat, res: Outcome)
    requires WellFormed(r) && Carries(s, r) && 0 < f < |r.fibers| && !r.fibers[f].pc.Terminated?
    ensures Carries(s, Arrive(r, f, res))
  {
    var x, q := r.fibers[f], Arrive(r, f, res);
    WakeStay(s.fibers, r.fibers, f, x.(pc := Terminated));
    if x.pc.Parked? {
      hide ControlToRoot, WellFormed, FatesKept, DeadStay;
      ToRootCarries(s, WithPc(r, f, Terminated), res);
    } else {
      WakeStay(s.fibers, r.fibers, f, x.(pc := Executing));
      WakeStay(s.fibers, r.fibers, f, x.(pc := Executing, cont := Tail(x.cont)));
      hide ControlToRoot, WellFormed, Logged, WithLeaf, FatesKept, DeadStay;
      match x.pc
      case Awaiting(_) => assert Carries(s, q);
      case Nesting(_) => assert Carries(s, q);
      case Executing => assert Carries(s, q);
    }
  }

  lemma EndBodyCarries(s: State, res: Outcome)
    requires Controlled(s) && s.current != ROOT
    ensures Carries(s, EndBody(s, res))
  {
    var f := s.current;
    assert s.fibers[f].pc.Executing?;
    assert DeadStay(s.fibers, WithPc(s, f, Terminated).fibers);
    assert DeadStay(s.fibers, WithPc(s, f, Parked).fibers);
    assert FatesKept(s.joined, s.joined);
    hide ControlToRoot, Arrive, ParentsInRange, TasksInRange, SendersInRange, WithVerdict, Partitioned, TimersCounted,
         OneExecutes, DeadStay, FatesKept, BorrowMatches;
    match s.fibers[f].parent
    case None => ToRootCarries(s, WithPc(s, f, Terminated).(trees := WithVerdict(s.trees, s.fibers[f].tree, res)), res);
    case Some(p) =>
      match CheckSuspended(s, p)
      case Some(e) => ToRootCarries(s, WithPc(s, f, Terminated), Err(e));
      case None => ArriveCarries(s, WithPc(s, f, Parked), p, res);
  }

  lemma ContinueCarries(s: State, r: State, cont: seq<Item>, raised: Option<Error>, events: seq<Event>)
    requires WellFormed(r) && r.fibers == s.fibers && r.joined == s.joined
    ensures Carries(s, Continue(r, cont, raised, events))
  {
  }

  lemma HookCarries(s: State, r: State, kind: Kind)
    requires Controlled(s) && s.current != ROOT && (kind.Blocking? ==> kind.chan < |r.chans|)
    requires WellFormed(r) && r.fibers == s.fibers && r.joined == s.joined && r.current == s.current
    ensures Carries(s, SpawnAndTransfer(r, kind))
  {
    assert s.fibers[s.current].pc.Executing?;
    hide ControlToRoot, Continue, ParentsInRange, TasksInRange, SendersInRange, Partitioned, TimersCounted, OneExecutes;
    var (r1, failed) := Spawn(r, kind);
    if failed.Some? {
      ContinueCarries(s, r, Tail(r.fibers[r.current].cont), failed, [In(Err(failed.value))]);
    } else {
      ToRootCarries(s, WithPc(r1, r1.current, Awaiting(r.spawned)), Ok(Nil));
    }
  }

  lemma BlockCarries(s: State, timed: bool)
    requires Controlled(s) && s.current != ROOT
    ensures Carries(s, BlockCurrent(s, timed))
  {
    assert WellFormed(s);
    hide SpawnAndTransfer, Controlled, Carries;
    var ch := |s.chans|;
    var lost := s.borrowed || !s.runtimeOpen;
    var chans := DropSender(s, s.current) + [Chan(s.current, if lost then Closed else Open)];
    HookCarries(s, s.(blockers := s.blockers[s.current := ch], chans := chans), Blocking(ch, timed));
  }

  lemma FiberImplCarries(s: State, body: seq<Op>)
    requires Controlled(s)
    ensures Carries(s, FiberImpl(s, body))
  {
    hide Partitioned, TimersCounted, WithLeaf, ParentsInRange, TasksInRange, SendersInRange;
  }

  lemma StepCarries(s: State)
    requires Controlled(s) && s.current != ROOT
    ensures Carries(s, Advance(s))
  {
    assert WellFormed(s);
    var k := s.fibers[s.current].cont;
    hide Continue, EndBody, FiberImpl, SpawnAndTransfer, BlockCurrent, UnblockFiber, Unwind, Controlled, Carries,
         ParentsInRange, TasksInRange, SendersInRange;
    if s.raised.Some? {
      if Unwind(k).Some? { ContinueCarries(s, s, Unwind(k).value, None, []); } else { EndBodyCarries(s, Err(s.raised.value)); }
    } else if k == [] {
      EndBodyCarries(s, Ok(Nil));
    } else {
      match k[0]
      case Do(Schedule(body)) => FiberImplCarries(s, body);
      case Do(Await) => HookCarries(s, s, External);
      case Do(Block(timed)) => BlockCarries(s, timed);
      case Do(Unblock(target)) =>
        UnblockFrame(s, target);
        var (s1, res) := UnblockFiber(s, target);
        ContinueCarries(s, s1, Tail(s1.fibers[s1.current].cont), ErrorOf(res), [In(res)]);
      case Do(TimeoutAfter(body)) =>
        var (s1, failed) := Spawn(s, Timer);
        if failed.Some? { ContinueCarries(s, s, k[1..], failed, []); }
        else { ContinueCarries(s, s1.(timers := s.timers + 1), Lift(body) + k[1..], None, []); }
      case Do(Rescue(body, handler)) => ContinueCarries(s, s, Lift(body) + [Catch(handler)] + k[1..], None, []);
      case Do(Emit(n)) => ContinueCarries(s, s, k[1..], None, [Out(n)]);
      case Do(Raise(e)) => ContinueCarries(s, s, k[1..], Some(e), []);
      case Catch(_) => ContinueCarries(s, s, k[1..], None, []);
    }
  }

  lemma JoinCarries(s: State, t: nat)
    requires Controlled(s) && Enabled(s, TaskJoined(t))
    ensures Carries(s, Join(s, t))
  {
    assert t !in s.joined;
    var task := s.tasks[t];
    hide Arrive, Partitioned, TimersCounted, OneExecutes;
    if task.phase.Finished? {
      ArriveJoins(s, t);
    }
  }

  lemma ArriveJoins(s: State, t: nat)
    requires Controlled(s) && Enabled(s, TaskJoined(t)) && s.tasks[t].phase.Finished? && t !in s.joined
    ensures Carries(s, Join(s, t))
  {
    var task := s.tasks[t];
    hide Arrive, Partitioned, TimersCounted, OneExecutes, ParentsInRange, TasksInRange, SendersInRange;
    if IsAlive(s, task.owner) {
      var s1 := s.(borrowed := false, tasks := s.tasks - {t}, joined := s.joined[t := Delivered(task.phase.res)], rootPc := Delivering);
      ArriveCarries(s, s1, task.owner, task.phase.res);
    }
  }

  lemma TimerCarries(s: State, t: nat)
    requires Controlled(s) && Enabled(s, TimerFires(t))
    ensures Carries(s, FireTimer(s, t))
  {
    hide Arrive, Partitioned, TimersCounted, OneExecutes;
    if CheckSuspended(s, s.tasks[t].owner).None? {
      ArriveCarries(s, s.(rootPc := Polling(t)), s.tasks[t].owner, Err(TimedOut));
    }
  }

  lemma NextCarries(s: State, a: Action)
    requires Controlled(s) && Enabled(s, a)
    ensures Carries(s, Next(s, a))
  {
    assert WellFormed(s);
    hide Advance, FiberImpl, UnblockFiber, Join, FireTimer, Finish, Crash, Interrupt, Controlled,
         ParentsInRange, TasksInRange, SendersInRange;
    match a
    case RootSchedule(script) => FiberImplCarries(s, script);
    case RootUnblock(target) => UnblockFrame(s, target);
    case Step => StepCarries(s);
    case TaskJoined(t) => JoinCarries(s, t);
    case TimerFires(t) => TimerCarries(s, t);
    case RootRun(closing) =>
    case SetEmpty =>
    case _ => EnvironmentFrame(s, a);
  }

  /** A fiber that has terminated stays so, and a task that was joined keeps its fate and never enters
      the set again: nothing is delivered twice. */
  lemma {:induction false} JoinedOnceDeadForever(s: State, actions: seq<Action>, s': State)
    requires Controlled(s) && Runs(s, actions, s')
    ensures Controlled(s') && Carries(s, s')
    ensures forall t | t in s.joined :: t !in s'.tasks
    decreases |actions|
  {
    hide Next, OneExecutes, BorrowMatches, TimersCounted;
    if actions != [] {
      var next := Next(s, actions[0]);
      NextControlled(s, actions[0]);
      NextCarries(s, actions[0]);
      JoinedOnceDeadForever(next, actions[1..], s');
    }
  }

  /** Once a fiber has terminated, every task it left, late timers included, drains without effect in
      every later state: a timer that fires ends its task with "fiber not alive", and a finished task
      is dropped; no fiber runs, `run` keeps waiting and returns nothing. */
  lemma DeadFibersAreInert(s: State, f: nat, actions: seq<Action>, s': State, t: nat)
    requires Controlled(s) && Runs(s, actions, s')
    requires 0 < f < |s.fibers| && s.fibers[f].pc.Terminated?
    requires t in s'.tasks && s'.tasks[t].owner == f && s'.rootPc == Joining
    ensures WellFormed(s')
    ensures Enabled(s', TimerFires(t)) ==>
      Next(s', TimerFires(t)) == s'.(tasks := s'.tasks[t := s'.tasks[t].(phase := Finished(Err(FiberNotAlive)))])
    ensures Enabled(s', TaskJoined(t)) ==>
      Next(s', TaskJoined(t)) == s'.(tasks := s'.tasks - {t},
                                     joined := s'.joined[t := if s'.tasks[t].phase.Crashed? then JoinFailed else Dropped])
  {
    JoinedOnceDeadForever(s, actions, s');
    hide Arrive, Advance, FiberImpl, UnblockFiber, Partitioned, TimersCounted, OneExecutes, ParentsInRange, TasksInRange, SendersInRange;
  }

  /** The body of a nested block is over: the fiber is parked, or has been raised in since and has died. */
  ghost predicate IsOver(s: State, f: nat) {
    0 < f < |s.fibers| && (s.fibers[f].pc.Parked? || s.fibers[f].pc.Terminated?)
  }

  /** A timer that outlives its nested block is harmless, from the moment the block is over: when it fires
      it ends the parked fiber and nothing else happens, neither to another fiber nor to `run`, and its
      task is dropped when it is joined. */
  lemma LateTimersAreInert(s: State, f: nat, actions: seq<Action>, s': State, t: nat)
    requires Controlled(s) && Runs(s, actions, s') && IsOver(s, f)
    requires WellFormed(s') && Enabled(s', TimerFires(t)) && s'.tasks[t].owner == f
    ensures var r := Next(s', TimerFires(t));
      && r.rootPc == Joining && r.current == ROOT && r.ret == s'.ret && r.borrowed
      && r.fibers == s'.fibers[f := s'.fibers[f].(pc := Terminated)]
      && t in r.tasks && !r.tasks[t].phase.Pending? && r.tasks == s'.tasks[t := r.tasks[t]]
    ensures var r := Next(s', TimerFires(t));
      && Enabled(r, TaskJoined(t))
      && Next(r, TaskJoined(t)) == r.(tasks := s'.tasks - {t}, joined := s'.joined[t := Dropped])
  {
    JoinedOnceDeadForever(s, actions, s');
    NextControlled(s', TimerFires(t));
    hide Runs, Partitioned, TimersCounted, OneExecutes, Advance, FiberImpl, UnblockFiber;
    var r := Next(s', TimerFires(t));
    LateTimerFires(s', t);
    assert s'.tasks[t := r.tasks[t]] - {t} == s'.tasks - {t};
    hide FireTimer, WellFormed;
    DropsForDead(r, t);
  }

  lemma LateTimerFires(s: State, t: nat)
    requires Controlled(s) && Enabled(s, TimerFires(t)) && IsOver(s, s.tasks[t].owner)
    ensures var f, r := s.tasks[t].owner, FireTimer(s, t);
      && r.rootPc == Joining && r.current == ROOT && r.ret == s.ret && r.borrowed && r.joined == s.joined
      && r.fibers == s.fibers[f := s.fibers[f].(pc := Terminated)]
      && t in r.tasks && r.tasks == s.tasks[t := r.tasks[t]] && r.tasks[t].owner == f && r.tasks[t].phase.Finished?
  {
    var f := s.tasks[t].owner;
    hide Partitioned, TimersCounted, OneExecutes, ParentsInRange, SendersInRange;
    if s.fibers[f].pc.Terminated? {
      assert s.fibers[f := s.fibers[f].(pc := Terminated)] == s.fibers;
    }
  }

  lemma DropsForDead(s: State, t: nat)
    requires Controlled(s) && s.rootPc == Joining && t in s.tasks && s.tasks[t].phase.Finished?
    requires 0 < s.tasks[t].owner < |s.fibers| && s.fibers[s.tasks[t].owner].pc.Terminated?
    ensures Enabled(s, TaskJoined(t))
    ensures Next(s, TaskJoined(t)) == s.(tasks := s.tasks - {t}, joined := s.joined[t := Dropped])
  {
    hide Arrive, Advance, FiberImpl, UnblockFiber, Partitioned, TimersCounted, OneExecutes, ParentsInRange, TasksInRange, SendersInRange;
  }

  // ---- what goes wrong while the fiber lives ----------------------------------------------------

  /** A timer that fires while its fiber is suspended in a hook or in a nested Fiber.schedule switches to
      it in the middle of the poll, with the timeout as the outcome of that call. The fiber runs although
      the task it awaited, or the block it scheduled, is still outstanding, and it cannot await anything:
      the task set is borrowed. */
  lemma TimerRaisesUnderBorrow(s: State, t: nat)
    requires Controlled(s) && Enabled(s, TimerFires(t))
    requires s.fibers[s.tasks[t].owner].pc.Awaiting? || s.fibers[s.tasks[t].owner].pc.Nesting?
    ensures var f, x, r := s.tasks[t].owner, s.fibers[s.tasks[t].owner], Next(s, TimerFires(t));
      && r.current == f && r.raised == Some(TimedOut) && r.rootPc == Polling(t)
      && r.fibers == s.fibers[f := x.(pc := Executing, cont := if x.pc.Awaiting? then Tail(x.cont) else x.cont)]
      && r.tasks == s.tasks && r.joined == s.joined
      && Spawn(r, External) == (r, Some(AlreadyBorrowed))
  {
    assert 0 < s.tasks[t].owner;
    hide ControlToRoot, Logged, WithLeaf, Tail, TasksAccounted, OneExecutes, Advance, FiberImpl, UnblockFiber, Join,
         ParentsInRange, TasksInRange, SendersInRange;
  }

  /** timeout_after, exactly: inside a timer's poll it fails with "already borrowed" and does not run its
      block; otherwise it starts one new timer task of the calling fiber and goes on with the block. */
  lemma TimeoutStartsExactly(s: State, body: seq<Op>)
    requires Controlled(s) && s.current != ROOT && s.raised.None?
    requires s.fibers[s.current].cont != [] && s.fibers[s.current].cont[0] == Do(TimeoutAfter(body))
    ensures var f, x, r := s.current, s.fibers[s.current], Advance(s);
      && r.current == f && r.rootPc == s.rootPc && s.spawned !in s.tasks
      && if s.rootPc.Polling? then
           && r.raised == Some(AlreadyBorrowed) && r.tasks == s.tasks && r.timers == s.timers
           && r.fibers == s.fibers[f := x.(cont := x.cont[1..])]
         else
           && r.raised.None? && r.timers == s.timers + 1 && r.spawned == s.spawned + 1
           && r.fibers == s.fibers[f := x.(cont := Lift(body) + x.cont[1..])]
           && r.tasks == s.tasks[s.spawned := Task(f, Timer, if s.runtimeOpen then Pending else Crashed, false)]
  {
    hide Lift, Logged, OneExecutes, ParentsInRange, TasksInRange, SendersInRange, EndBody, FiberImpl, SpawnAndTransfer,
         BlockCurrent, UnblockFiber, Unwind;
  }

  /** Inside a timer's poll every hook fails at once with "already borrowed" and the fiber goes on: no
      task, no transfer. `block` has by then put its sender into the map, and its receiver is gone. */
  lemma HooksRefused(s: State)
    requires Controlled(s) && s.current != ROOT && s.raised.None? && s.rootPc.Polling?
    requires s.fibers[s.current].cont != [] && Suspends(s.fibers[s.current].cont[0])
    ensures var f, x, r := s.current, s.fibers[s.current], Advance(s);
      && r.current == f && r.rootPc == s.rootPc && r.tasks == s.tasks && r.raised == Some(AlreadyBorrowed)
      && r.fibers == s.fibers[f := x.(cont := x.cont[1..])]
      && if x.cont[0].op.Await? then r.blockers == s.blockers && r.chans == s.chans
         else r.blockers == s.blockers[f := |s.chans|] && |r.chans| == |s.chans| + 1 && r.chans[|s.chans|] == Chan(f, Closed)
  {
    hide Lift, Logged, OneExecutes, ParentsInRange, TasksInRange, SendersInRange, TasksAccounted, EndBody, FiberImpl,
         UnblockFiber, Unwind, ControlToRoot;
  }

  /** The end of a root-scheduled block, timers or not: its fiber dies and root hears its outcome. */
  lemma BlockEndsForRoot(s: State, res: Outcome)
    requires Controlled(s) && s.current != ROOT && s.fibers[s.current].parent.None?
    ensures RootHears(s, EndBody(s, res), res)
    ensures EndBody(s, res).fibers == s.fibers[s.current := s.fibers[s.current].(pc := Terminated)]
    ensures EndBody(s, res).joined == s.joined
  {
    var s1 := WithPc(s, s.current, Terminated).(trees := WithVerdict(s.trees, s.fibers[s.current].tree, res));
    assert RootTransferring(s1);
    hide ControlToRoot, WithVerdict, OneExecutes, TasksAccounted, ParentsInRange, TasksInRange, SendersInRange, RootTransferring;
    ToRootHears(s1, res);
    ToRootKeeps(s1, res);
  }

  /** The end of a nested block, timers or not. If its parent has died meanwhile, the fiber dies too and
      root hears "not alive". Otherwise the fiber is parked and the parent sees the outcome as that of
      whatever call it stands in, which a timer may have made another one; a parent that is parked itself
      dies of it, and root hears the outcome. */
  lemma BlockEndsForParent(s: State, res: Outcome)
    requires Controlled(s) && s.current != ROOT && s.fibers[s.current].parent.Some?
    ensures var f, p, r := s.current, s.fibers[s.current].parent.value, EndBody(s, res);
      && 0 < p < f
      && var x := s.fibers[p];
      && var parked := s.fibers[f := s.fibers[f].(pc := Parked)];
      match x.pc
      case Terminated =>
        r.fibers == s.fibers[f := s.fibers[f].(pc := Terminated)] && RootHears(s, r, Err(FiberNotAlive))
      case Parked => r.fibers == parked[p := x.(pc := Terminated)] && RootHears(s, r, res)
      case Awaiting(_) =>
        r.current == p && r.raised == ErrorOf(res) && r.fibers == parked[p := x.(pc := Executing, cont := Tail(x.cont))]
      case Nesting(_) => r.current == p && r.raised == ErrorOf(res) && r.fibers == parked[p := x.(pc := Executing)]
      case Executing => false
  {
    var f, p := s.current, s.fibers[s.current].parent.value;
    assert 0 < p < f && s.fibers[f].pc.Executing? && !s.fibers[p].pc.Executing?;
    if s.fibers[p].pc.Terminated? || s.fibers[p].pc.Parked? {
      DoneParent(s, res);
    } else {
      hide ControlToRoot, Logged, WithLeaf, Tail, OneExecutes, TasksAccounted, ParentsInRange, TasksInRange, SendersInRange,
           BorrowMatches;
    }
  }

  lemma DoneParent(s: State, res: Outcome)
    requires Controlled(s) && s.current != ROOT && s.fibers[s.current].parent.Some?
    requires var p := s.fibers[s.current].parent.value;
      0 < p < s.current && (s.fibers[p].pc.Terminated? || s.fibers[p].pc.Parked?)
    ensures var f, p, r := s.current, s.fibers[s.current].parent.value, EndBody(s, res);
      if s.fibers[p].pc.Terminated? then
        r.fibers == s.fibers[f := s.fibers[f].(pc := Terminated)] && RootHears(s, r, Err(FiberNotAlive))
      else
        r.fibers == s.fibers[f := s.fibers[f].(pc := Parked)][p := s.fibers[p].(pc := Terminated)] && RootHears(s, r, res)
  {
    var f, p := s.current, s.fibers[s.current].parent.value;
    var s1, s2 := WithPc(s, f, Terminated), WithPc(WithPc(s, f, Parked), p, Terminated);
    assert RootTransferring(s1) && RootTransferring(s2);
    hide ControlToRoot, OneExecutes, TasksAccounted, ParentsInRange, TasksInRange, SendersInRange, RootTransferring, BorrowMatches;
    if s.fibers[p].pc.Terminated? {
      ToRootHears(s1, Err(FiberNotAlive));
      ToRootKeeps(s1, Err(FiberNotAlive));
    } else {
      ToRootHears(s2, res);
      ToRootKeeps(s2, res);
    }
  }

  /** A timeout that nobody rescues is swallowed when it hits a root-scheduled block: the exception ends
      the fiber inside the poll, so it becomes the outcome of the timer's own task, whose fiber is dead by
      the time it is joined; `run` goes on as if nothing had happened. */
  lemma UnrescuedTimeoutIsSwallowed(s: State, t: nat)
    requires Controlled(s) && s.rootPc == Polling(t) && s.tasks[t].owner == s.current && s.current != ROOT
    requires s.fibers[s.current].parent.None? && s.raised.Some? && Unwind(s.fibers[s.current].cont).None?
    ensures Enabled(s, Step)
    ensures var r := Next(s, Step);
      && r.rootPc == Joining && r.ret == s.ret && r.fibers[s.current].pc.Terminated?
      && Enabled(r, TaskJoined(t))
      && Next(r, TaskJoined(t)) == r.(tasks := r.tasks - {t}, joined := s.joined[t := Dropped])
  {
    var e := s.raised.value;
    NextControlled(s, Step);
    BlockEndsForRoot(s, Err(e));
    assert Next(s, Step) == EndBody(s, Err(e)) by {
      hide EndBody, Continue, SpawnAndTransfer, FiberImpl, BlockCurrent, UnblockFiber;
    }
    var r := Next(s, Step);
    hide Next, EndBody, WellFormed, OneExecutes, TasksAccounted;
    DropsForDead(r, t);
  }

  /** What is delivered to a fiber whose nested block is over, other than by a late timer, ends it, and ends
      the call of `run` as well if it is an error. */
  lemma OverButDelivered(s: State, t: nat, res: Outcome)
    requires Controlled(s) && s.rootPc == Joining && t in s.tasks && s.tasks[t].phase == Finished(res)
    requires s.fibers[s.tasks[t].owner].pc.Parked?
    ensures Enabled(s, TaskJoined(t))
    ensures var f, r := s.tasks[t].owner, Next(s, TaskJoined(t));
      && r.current == ROOT && r.joined == s.joined[t := Delivered(res)]
      && r.fibers == s.fibers[f := s.fibers[f].(pc := Terminated)]
      && if res.Err? then r.rootPc == Idle && r.ret == Some(res) else r.rootPc == Joining && r.ret == s.ret
  {
    assert 0 < s.tasks[t].owner;
    hide Advance, FiberImpl, UnblockFiber, TasksAccounted, OneExecutes, ParentsInRange, TasksInRange, SendersInRange;
  }

  /** begin; timeout_after { await }; rescue; await; end */
  function RescuedTimeout(): seq<Op> {
    [Rescue([TimeoutAfter([Await])], [Await])]
  }

  /** The fiber of that script, with `cont` left. */
  function Lone(pc: Pc, cont: seq<Item>): seq<Fiber> {
    [Fiber(Executing, [], None, ROOT), Fiber(pc, cont, None, 1)]
  }

  function LoneTree(log: seq<Event>): map<nat, Tree> {
    map[1 := Tree(RescuedTimeout(), 1, log, None)]
  }

  // The states of one run: scheduled, protected region open, timer started, awaiting, `run` waiting,
  // timer fired, handler entered.
  function Scheduled(): State {
    Init().(fibers := Lone(Executing, Lift(RescuedTimeout())), current := 1, rootPc := Scheduling, trees := LoneTree([]))
  }

  function Protected(): State {
    Scheduled().(fibers := Lone(Executing, [Do(TimeoutAfter([Await])), Catch([Await])]))
  }

  function TimerStarted(): State {
    Protected().(fibers := Lone(Executing, [Do(Await), Catch([Await])]), spawned := 1, timers := 1,
                 tasks := map[0 := Task(1, Timer, Pending, false)])
  }

  function Suspended(): State {
    TimerStarted().(fibers := Lone(Awaiting(1), [Do(Await), Catch([Await])]), spawned := 2, current := ROOT,
                    rootPc := Idle, ret := Some(Ok(Nil)),
                    tasks := map[0 := Task(1, Timer, Pending, false), 1 := Task(1, External, Pending, false)])
  }

  function InRun(): State {
    Suspended().(borrowed := true, rootPc := Joining)
  }

  function Fired(): State {
    InRun().(fibers := Lone(Executing, [Catch([Await])]), current := 1, raised := Some(TimedOut), rootPc := Polling(0),
             trees := LoneTree([In(Err(TimedOut))]))
  }

  function Rescued(): State {
    Fired().(fibers := Lone(Executing, [Do(Await)]), raised := None)
  }

  lemma ToScheduled()
    ensures Enabled(Init(), RootSchedule(RescuedTimeout())) && Next(Init(), RootSchedule(RescuedTimeout())) == Scheduled()
  {
  }

  lemma ToProtected()
    ensures WellFormed(Scheduled()) && Enabled(Scheduled(), Step) && Next(Scheduled(), Step) == Protected()
  {
    var k := Lift(RescuedTimeout());
    assert k[0] == Do(RescuedTimeout()[0]);
    assert Lift([TimeoutAfter([Await])]) + [Catch([Await])] + k[1..] == [Do(TimeoutAfter([Await])), Catch([Await])];
    var none: seq<Event> := [];
    assert none + [] == none;
    hide EndBody, SpawnAndTransfer, FiberImpl, BlockCurrent, UnblockFiber, Spawn, Lift;
  }

  lemma ToTimerStarted()
    ensures WellFormed(Protected()) && Enabled(Protected(), Step) && Next(Protected(), Step) == TimerStarted()
  {
    assert Lift([Await]) + [Do(TimeoutAfter([Await])), Catch([Await])][1..] == [Do(Await), Catch([Await])];
    var none: seq<Event> := [];
    assert none + [] == none;
    hide EndBody, SpawnAndTransfer, FiberImpl, BlockCurrent, UnblockFiber, Lift;
  }

  lemma ToSuspended()
    ensures WellFormed(TimerStarted()) && Enabled(TimerStarted(), Step) && Next(TimerStarted(), Step) == Suspended()
  {
    hide EndBody, FiberImpl, BlockCurrent, UnblockFiber, Lift, Continue;
  }

  lemma ToFired()
    ensures WellFormed(InRun()) && Enabled(InRun(), TimerFires(0)) && Next(InRun(), TimerFires(0)) == Fired()
  {
    assert [Do(Await), Catch([Await])][1..] == [Catch([Await])];
    assert [] + [In(Err(TimedOut))] == [In(Err(TimedOut))];
    hide Advance, FiberImpl, UnblockFiber, Join, ControlToRoot, Lift;
  }

  lemma ToRescued()
    ensures WellFormed(Fired()) && Enabled(Fired(), Step) && Next(Fired(), Step) == Rescued()
  {
    assert Lift([Await]) + [Catch([Await])][1..] == [Do(Await)];
    assert Unwind([Catch([Await])]) == Some([Do(Await)]);
    assert [In(Err(TimedOut))] + [] == [In(Err(TimedOut))];
    hide EndBody, SpawnAndTransfer, FiberImpl, BlockCurrent, UnblockFiber, Spawn, Lift, Unwind;
  }

  /** A fiber rescued from its timeout cannot await again: the timer raised inside a poll, the task set
      is still borrowed, and the next hook fails with "already borrowed". So the borrow discipline that
      holds without timers fails with them. */
  lemma RescuedFiberCannotAwait() returns (s: State)
    ensures Reachable(s) && s.current != ROOT && s.raised.None? && s.fibers[s.current].cont == [Do(Await)]
    ensures 1 in s.tasks && s.tasks[1].owner == s.current && s.tasks[1].phase.Pending?
    ensures Spawn(s, External).1 == Some(AlreadyBorrowed)
    ensures Enabled(s, Step) && Next(s, Step).current == s.current && Next(s, Step).raised == Some(AlreadyBorrowed)
  {
    s := Rescued();
    RescuedReachable();
    hide EndBody, FiberImpl, BlockCurrent, UnblockFiber, Lift, ControlToRoot, Unwind;
  }

  lemma RescuedReachable()
    ensures Reachable(Rescued())
  {
    var empty: seq<Action> := [];
    assert Runs(Init(), empty, Init());
    ToScheduled();
    ToProtected();
    ToTimerStarted();
    ToSuspended();
    assert WellFormed(Suspended()) && Enabled(Suspended(), RootRun(false)) && Next(Suspended(), RootRun(false)) == InRun();
    ToFired();
    ToRescued();
    hide Next, Enabled, Init, WellFormed, Scheduled, Protected, TimerStarted, Suspended, InRun, Fired, Rescued;
    OneActionReachable(Init(), RootSchedule(RescuedTimeout()));
    OneActionReachable(Scheduled(), Step);
    OneActionReachable(Protected(), Step);
    OneActionReachable(TimerStarted(), Step);
    OneActionReachable(Suspended(), RootRun(false));
    OneActionReachable(InRun(), TimerFires(0));
    OneActionReachable(Fired(), Step);
  }
}
