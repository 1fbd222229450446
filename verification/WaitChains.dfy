/** How suspended fibers wait for one another, in every run that never calls timeout_after.

    A fiber inside a nested schedule has no task of its own. It waits for one child, which waits
    for a task or for a child in turn; the links form disjoint chains, one per root-scheduled
    fiber, and finishing a child hands control to exactly the fiber that waits for it. */
module WaitChains {
  import opened Scripts
  import opened Machine
  import opened Control

  predicate Unfinished(pc: Pc) {
    !pc.Parked? && !pc.Terminated?
  }

  predicate IsLeaf(pc: Pc) {
    pc.Executing? || pc.Awaiting?
  }

  /** The links of fiber `f` up to its parent and down to its child. */
  ghost predicate FiberLinked(fs: seq<Fiber>, f: nat)
    requires f < |fs|
  {
    var x := fs[f];
    && (x.pc.Nesting? ==>
          var c := x.pc.child;
          f < c < |fs| && fs[c].parent == Some(f) && Unfinished(fs[c].pc))
    && (x.parent.Some? ==>
          var p := x.parent.value;
          0 < p < f && fs[p].tree == x.tree && !x.pc.Terminated? && (Unfinished(x.pc) ==> fs[p].pc == Nesting(f)))
    && (x.parent.None? ==> x.tree == f && !x.pc.Parked?)
  }

  ghost predicate Links(fs: seq<Fiber>) {
    forall f | 0 < f < |fs| :: FiberLinked(fs, f)
  }

  /** A task's owner awaits that task; a fiber awaits a task it owns, or was stranded by a failed join. */
  ghost predicate Owners(fs: seq<Fiber>, tasks: map<nat, Task>, joined: map<nat, Fate>) {
    && (forall t | t in tasks :: 0 < tasks[t].owner < |fs| && fs[tasks[t].owner].pc == Awaiting(t))
    && (forall f | 0 < f < |fs| && fs[f].pc.Awaiting? :: Awaited(fs, tasks, joined, f))
    && (forall t | t in joined :: joined[t] != Dropped)
  }

  ghost predicate Awaited(fs: seq<Fiber>, tasks: map<nat, Task>, joined: map<nat, Fate>, f: nat)
    requires f < |fs| && fs[f].pc.Awaiting?
  {
    var t := fs[f].pc.task;
    (t in tasks && tasks[t].owner == f) || (t in joined && joined[t] == JoinFailed)
  }

  ghost predicate Chained(s: State) {
    && s.timers == 0
    && Links(s.fibers)
    && Owners(s.fibers, s.tasks, s.joined)
  }

  // ---- what each change of the fibers keeps ---------------------------------------------

  lemma LeafMoves(fs: seq<Fiber>, f: nat, x: Fiber)
    requires Links(fs) && 0 < f < |fs| && IsLeaf(fs[f].pc) && IsLeaf(x.pc)
    requires x.parent == fs[f].parent && x.tree == fs[f].tree
    ensures Links(fs[f := x])
  {
    var gs := fs[f := x];
    forall g | 0 < g < |fs| ensures FiberLinked(gs, g) {
      assert FiberLinked(fs, g);
    }
  }

  lemma LeafNests(fs: seq<Fiber>, f: nat, x: Fiber, child: Fiber)
    requires Links(fs) && 0 < f < |fs| && IsLeaf(fs[f].pc)
    requires x.pc == Nesting(|fs|) && x.parent == fs[f].parent && x.tree == fs[f].tree
    requires IsLeaf(child.pc) && child.parent == Some(f) && child.tree == x.tree
    ensures Links(fs[f := x] + [child])
  {
    var gs := fs[f := x] + [child];
    forall g | 0 < g < |gs| ensures FiberLinked(gs, g) {
      if g < |fs| {
        assert FiberLinked(fs, g);
      }
    }
  }

  lemma TreeStarts(fs: seq<Fiber>, x: Fiber)
    requires Links(fs) && |fs| > 0 && IsLeaf(x.pc) && x.parent.None? && x.tree == |fs|
    ensures Links(fs + [x])
  {
    forall g | 0 < g < |fs| + 1 ensures FiberLinked(fs + [x], g) {
      if g < |fs| {
        assert FiberLinked(fs, g);
      }
    }
  }

  lemma TreeEnds(fs: seq<Fiber>, f: nat)
    requires Links(fs) && 0 < f < |fs| && IsLeaf(fs[f].pc) && fs[f].parent.None?
    ensures Links(fs[f := fs[f].(pc := Terminated)])
  {
    var gs := fs[f := fs[f].(pc := Terminated)];
    forall g | 0 < g < |fs| ensures FiberLinked(gs, g) {
      assert FiberLinked(fs, g);
    }
  }

  lemma ChildEnds(fs: seq<Fiber>, f: nat)
    requires Links(fs) && 0 < f < |fs| && IsLeaf(fs[f].pc) && fs[f].parent.Some?
    ensures var p := fs[f].parent.value;
      && 0 < p < f && fs[p].pc == Nesting(f) && fs[p].tree == fs[f].tree
      && Links(fs[f := fs[f].(pc := Parked)][p := fs[p].(pc := Executing)])
  {
    assert FiberLinked(fs, f);
    var p := fs[f].parent.value;
    var gs := fs[f := fs[f].(pc := Parked)][p := fs[p].(pc := Executing)];
    forall g | 0 < g < |fs| ensures FiberLinked(gs, g) {
      assert FiberLinked(fs, g);
      assert FiberLinked(fs, p);
    }
  }

  // ---- what each change keeps of the task owners -----------------------------------------

  /** Owners depends on nothing but who awaits what. */
  lemma SameAwaiters(fs: seq<Fiber>, gs: seq<Fiber>, tasks: map<nat, Task>, joined: map<nat, Fate>)
    requires Owners(fs, tasks, joined) && |fs| <= |gs|
    requires forall f | 0 < f < |fs| :: gs[f].pc == fs[f].pc || !(gs[f].pc.Awaiting? || fs[f].pc.Awaiting?)
    requires forall f | |fs| <= f < |gs| :: !gs[f].pc.Awaiting?
    ensures Owners(gs, tasks, joined)
  {
    forall f | 0 < f < |gs| && gs[f].pc.Awaiting? ensures Awaited(gs, tasks, joined, f) {
      assert Awaited(fs, tasks, joined, f);
    }
  }

  lemma SameOwners(fs: seq<Fiber>, tasks: map<nat, Task>, tasks': map<nat, Task>, joined: map<nat, Fate>)
    requires Owners(fs, tasks, joined) && tasks'.Keys == tasks.Keys
    requires forall t | t in tasks :: tasks'[t].owner == tasks[t].owner
    ensures Owners(fs, tasks', joined)
  {
    forall f | 0 < f < |fs| && fs[f].pc.Awaiting? ensures Awaited(fs, tasks', joined, f) {
      assert Awaited(fs, tasks, joined, f);
    }
  }

  lemma FiberSuspends(fs: seq<Fiber>, f: nat, tasks: map<nat, Task>, joined: map<nat, Fate>, t: nat, task: Task)
    requires Owners(fs, tasks, joined) && 0 < f < |fs| && fs[f].pc.Executing?
    requires t !in tasks && task.owner == f
    ensures Owners(fs[f := fs[f].(pc := Awaiting(t))], tasks[t := task], joined)
  {
    var gs := fs[f := fs[f].(pc := Awaiting(t))];
    forall g | 0 < g < |gs| && gs[g].pc.Awaiting? ensures Awaited(gs, tasks[t := task], joined, g) {
      if g != f {
        assert Awaited(fs, tasks, joined, g);
      }
    }
  }

  lemma TaskLeaves(fs: seq<Fiber>, tasks: map<nat, Task>, joined: map<nat, Fate>, t: nat, x: Fiber)
    requires Owners(fs, tasks, joined) && t in tasks && t !in joined && !x.pc.Awaiting?
    ensures forall res :: Owners(fs[tasks[t].owner := x], tasks - {t}, joined[t := Delivered(res)])
    ensures Owners(fs, tasks - {t}, joined[t := JoinFailed])
  {
    var o := tasks[t].owner;
    var gs := fs[o := x];
    forall res ensures Owners(gs, tasks - {t}, joined[t := Delivered(res)]) {
      forall g | 0 < g < |gs| && gs[g].pc.Awaiting?
        ensures Awaited(gs, tasks - {t}, joined[t := Delivered(res)], g)
      {
        assert Awaited(fs, tasks, joined, g);
      }
    }
    forall g | 0 < g < |fs| && fs[g].pc.Awaiting? ensures Awaited(fs, tasks - {t}, joined[t := JoinFailed], g) {
      assert Awaited(fs, tasks, joined, g);
    }
  }

  // ---- every action keeps the chains -----------------------------------------------------

  /** `r` is `s` with control back in the root fiber. */
  ghost predicate BackAtRoot(s: State, r: State) {
    r == s.(current := ROOT, raised := None, rootPc := r.rootPc, ret := r.ret, closing := r.closing,
            runtimeOpen := r.runtimeOpen, borrowed := r.borrowed)
  }

  /** Handing control to root changes neither fibers nor tasks, unless a timer is being polled. */
  lemma ToRootFrame(s: State, res: Outcome)
    requires WellFormed(s) && !s.rootPc.Polling?
    ensures BackAtRoot(s, ControlToRoot(s, res))
  {
    hide WellFormed;
    var r := ControlToRoot(s, res);
    match s.rootPc
    case Idle => assert BackAtRoot(s, r);
    case Scheduling => assert BackAtRoot(s, r);
    case Joining => assert BackAtRoot(s, r);
    case Delivering => assert BackAtRoot(s, r);
  }

  lemma ContinueChained(s: State, cont: seq<Item>, raised: Option<Error>, events: seq<Event>)
    requires Controlled(s) && Chained(s) && s.current != ROOT
    ensures Chained(Continue(s, cont, raised, events))
  {
    hide Links, Owners, Partitioned;
    var x := s.fibers[s.current];
    LeafMoves(s.fibers, s.current, x.(cont := cont));
    SameAwaiters(s.fibers, s.fibers[s.current := x.(cont := cont)], s.tasks, s.joined);
  }

  lemma FiberImplChained(s: State, body: seq<Op>)
    requires Controlled(s) && Chained(s)
    ensures Chained(FiberImpl(s, body))
  {
    hide Links, Owners, Partitioned;
    var r := FiberImpl(s, body);
    if s.current == ROOT {
      TreeStarts(s.fibers, r.fibers[|s.fibers|]);
    } else {
      LeafNests(s.fibers, s.current, r.fibers[s.current], r.fibers[|s.fibers|]);
    }
    SameAwaiters(s.fibers, r.fibers, s.tasks, s.joined);
  }

  /** With no timer about, a hook called by a fiber always gets its task into the set and always
      reaches root: the borrow is free and check_suspended on root succeeds. */
  lemma HookSuspends(s: State, kind: Kind)
    requires Controlled(s) && Chained(s) && s.current != ROOT && (kind.Blocking? ==> kind.chan < |s.chans|)
    ensures !s.borrowed && CheckSuspended(s, ROOT) == None && RootHears(s, SpawnAndTransfer(s, kind), Ok(Nil))
    ensures var f, r := s.current, SpawnAndTransfer(s, kind);
      r == s.(current := ROOT, raised := None, rootPc := r.rootPc, ret := r.ret, closing := r.closing,
              runtimeOpen := r.runtimeOpen, borrowed := r.borrowed,
              fibers := s.fibers[f := s.fibers[f].(pc := Awaiting(s.spawned))],
              tasks := s.tasks[s.spawned := Task(f, kind, if s.runtimeOpen then Pending else Crashed, false)],
              spawned := s.spawned + 1)
  {
    var s1 := Spawn(s, kind).0;
    assert RootTransferring(WithPc(s1, s.current, Awaiting(s.spawned)));
    hide ControlToRoot, Links, Owners, Logged, Partitioned, TimersCounted, OneExecutes, RootTransferring;
    ToRootFrame(WithPc(s1, s.current, Awaiting(s.spawned)), Ok(Nil));
    ToRootHears(WithPc(s1, s.current, Awaiting(s.spawned)), Ok(Nil));
  }

  lemma SpawnAndTransferChained(s: State, kind: Kind)
    requires Controlled(s) && Chained(s) && s.current != ROOT && (kind.Blocking? ==> kind.chan < |s.chans|)
    ensures Chained(SpawnAndTransfer(s, kind))
  {
    HookSuspends(s, kind);
    hide SpawnAndTransfer, Links, Owners;
    var f := s.current;
    LeafMoves(s.fibers, f, s.fibers[f].(pc := Awaiting(s.spawned)));
    FiberSuspends(s.fibers, f, s.tasks, s.joined, s.spawned,
                  Task(f, kind, if s.runtimeOpen then Pending else Crashed, false));
  }

  /** The end of a nested block, by return or by exception, switches to the fiber that scheduled it,
      which sees the block's own outcome; check_suspended on that fiber never fails. */
  lemma NestedBodyReturns(s: State, res: Outcome)
    requires Controlled(s) && Chained(s) && s.current != ROOT && s.fibers[s.current].parent.Some?
    ensures var f, p := s.current, s.fibers[s.current].parent.value;
      && 0 < p < f && s.fibers[p].pc == Nesting(f) && CheckSuspended(s, p) == None
      && EndBody(s, res) == s.(current := p, raised := ErrorOf(res),
                               fibers := s.fibers[f := s.fibers[f].(pc := Parked)][p := s.fibers[p].(pc := Executing)],
                               trees := WithLeaf(s.trees, s.fibers[f].tree, p))
  {
    hide ControlToRoot, Owners, WithVerdict, WithLeaf, Partitioned, TimersCounted, Links;
    ChildEnds(s.fibers, s.current);
  }

  /** The end of a root-scheduled block terminates its fiber and hands its outcome to root: it is what
      Fiber.schedule returns if root is still in it, and in `run` an error is what `run` returns while
      after a value `run` goes on. */
  lemma RootBodyEnds(s: State, res: Outcome)
    requires Controlled(s) && Chained(s) && s.current != ROOT && s.fibers[s.current].parent.None?
    ensures RootHears(s, EndBody(s, res), res)
    ensures var f, r := s.current, EndBody(s, res);
      r == s.(current := ROOT, raised := None, rootPc := r.rootPc, ret := r.ret, closing := r.closing,
              runtimeOpen := r.runtimeOpen, borrowed := r.borrowed,
              fibers := s.fibers[f := s.fibers[f].(pc := Terminated)],
              trees := WithVerdict(s.trees, s.fibers[f].tree, res))
  {
    var s1 := WithPc(s, s.current, Terminated).(trees := WithVerdict(s.trees, s.fibers[s.current].tree, res));
    assert RootTransferring(s1);
    hide ControlToRoot, Links, Owners, WithVerdict, Partitioned, TimersCounted, OneExecutes, RootTransferring;
    ToRootFrame(s1, res);
    ToRootHears(s1, res);
  }

  lemma EndBodyChained(s: State, res: Outcome)
    requires Controlled(s) && Chained(s) && s.current != ROOT
    ensures Chained(EndBody(s, res))
  {
    hide ControlToRoot, Links, Owners, WithVerdict, WithLeaf, Partitioned, TimersCounted, Arrive;
    var f := s.current;
    if s.fibers[f].parent.None? {
      TreeEnds(s.fibers, f);
      RootBodyEnds(s, res);
      SameAwaiters(s.fibers, s.fibers[f := s.fibers[f].(pc := Terminated)], s.tasks, s.joined);
    } else {
      NestedBodyReturns(s, res);
      ChildEnds(s.fibers, f);
      SameAwaiters(s.fibers, EndBody(s, res).fibers, s.tasks, s.joined);
    }
  }

  lemma BlockChained(s: State, timed: bool)
    requires Controlled(s) && Chained(s) && s.current != ROOT
    ensures Chained(BlockCurrent(s, timed))
  {
    hide SpawnAndTransfer, Links, Owners, Partitioned;
    var ch := |s.chans|;
    var lost := s.borrowed || !s.runtimeOpen;
    var chans := DropSender(s, s.current) + [Chan(s.current, if lost then Closed else Open)];
    SpawnAndTransferChained(s.(blockers := s.blockers[s.current := ch], chans := chans), Blocking(ch, timed));
  }

  lemma StepChained(s: State)
    requires Controlled(s) && Chained(s) && s.current != ROOT && Advance(s).timers == 0
    ensures Chained(Advance(s))
  {
    hide Continue, EndBody, FiberImpl, SpawnAndTransfer, BlockCurrent, UnblockFiber, Unwind, Links, Owners,
         OneExecutes, BorrowMatches, Partitioned, TimersCounted;
    var k := s.fibers[s.current].cont;
    if s.raised.Some? {
      match Unwind(k)
      case Some(h) => ContinueChained(s, h, None, []);
      case None => EndBodyChained(s, Err(s.raised.value));
    } else if k == [] {
      EndBodyChained(s, Ok(Nil));
    } else {
      match k[0]
      case Catch(_) => ContinueChained(s, k[1..], None, []);
      case Do(Emit(n)) => ContinueChained(s, k[1..], None, [Out(n)]);
      case Do(Raise(e)) => ContinueChained(s, k[1..], Some(e), []);
      case Do(Rescue(body, handler)) => ContinueChained(s, Lift(body) + [Catch(handler)] + k[1..], None, []);
      case Do(Schedule(body)) => FiberImplChained(s, body);
      case Do(Await) => SpawnAndTransferChained(s, External);
      case Do(Block(timed)) => BlockChained(s, timed);
      case Do(Unblock(target)) =>
        UnblockControlled(s, target);
        UnblockFrame(s, target);
        var (s1, res) := UnblockFiber(s, target);
        ContinueChained(s1, Tail(s1.fibers[s1.current].cont), ErrorOf(res), [In(res)]);
      case Do(TimeoutAfter(body)) => StartsTimer(s, body);
    }
  }

  /** A fiber never runs while the task set is borrowed, so timeout_after would start its timer. */
  lemma StartsTimer(s: State, body: seq<Op>)
    requires Controlled(s) && Chained(s) && s.current != ROOT && s.raised.None?
    requires s.fibers[s.current].cont != [] && s.fibers[s.current].cont[0] == Do(TimeoutAfter(body))
    ensures Advance(s).timers > 0
  {
    hide Links, Owners, Partitioned;
  }

  /** A finished task goes to the fiber that spawned it at its present suspension point: the fiber is
      alive, waits for that very task, and gets that task's outcome. */
  lemma JoinDelivers(s: State, t: nat, res: Outcome)
    requires Controlled(s) && Chained(s) && s.rootPc == Joining && t in s.tasks && s.tasks[t].phase == Finished(res)
    ensures var o := s.tasks[t].owner;
      && s.fibers[o].pc == Awaiting(t) && IsAlive(s, o) && CheckSuspended(s, o) == None
      && Join(s, t) == s.(current := o, raised := ErrorOf(res), rootPc := Delivering, borrowed := false,
                          tasks := s.tasks - {t}, joined := s.joined[t := Delivered(res)],
                          fibers := s.fibers[o := s.fibers[o].(pc := Executing, cont := Tail(s.fibers[o].cont))],
                          trees := WithLeaf(Logged(s.trees, s.fibers[o].tree, [In(res)]), s.fibers[o].tree, o))
  {
    hide Links, Partitioned, Logged, WithLeaf, Tail, TimersCounted, OneExecutes, WellFormed, ControlToRoot;
    assert s.fibers[s.tasks[t].owner].pc == Awaiting(t);
  }

  /** A crashed task only leaves the set; `run` goes back to waiting. */
  lemma JoinStrands(s: State, t: nat)
    requires Controlled(s) && s.rootPc == Joining && t in s.tasks && s.tasks[t].phase.Crashed?
    ensures Join(s, t) == s.(tasks := s.tasks - {t}, joined := s.joined[t := JoinFailed])
  {
    hide Partitioned, TimersCounted, OneExecutes, WellFormed;
  }

  lemma JoinChained(s: State, t: nat)
    requires Controlled(s) && Chained(s) && s.rootPc == Joining && t in s.tasks && !s.tasks[t].phase.Pending?
    ensures Chained(Join(s, t))
  {
    assert t !in s.joined;
    hide Join, Links, Partitioned, Logged, WithLeaf, TimersCounted, OneExecutes;
    var o := s.tasks[t].owner;
    var x := s.fibers[o].(pc := Executing, cont := Tail(s.fibers[o].cont));
    assert s.fibers[o].pc == Awaiting(t);
    hide Owners;
    TaskLeaves(s.fibers, s.tasks, s.joined, t, x);
    if s.tasks[t].phase.Crashed? {
      JoinStrands(s, t);
    } else {
      JoinDelivers(s, t, s.tasks[t].phase.res);
      LeafMoves(s.fibers, o, x);
    }
  }

  lemma EnvironmentChained(s: State, a: Action)
    requires Controlled(s) && Chained(s) && Enabled(s, a) && IsEnvironment(a)
    ensures Chained(Next(s, a))
  {
    EnvironmentFrame(s, a);
    hide Next, Links, Owners, Partitioned, TimersCounted, OneExecutes;
    SameOwners(s.fibers, s.tasks, Next(s, a).tasks, s.joined);
  }

  lemma NextChained(s: State, a: Action)
    requires Controlled(s) && Chained(s) && Enabled(s, a) && Next(s, a).timers == 0
    ensures Chained(Next(s, a))
  {
    assert !a.TimerFires?;
    hide Advance, FiberImpl, UnblockFiber, Join, FireTimer, Finish, Crash, Interrupt,
         Links, Owners, Partitioned, TimersCounted, OneExecutes;
    match a
    case RootSchedule(script) => FiberImplChained(s, script);
    case RootUnblock(target) => UnblockFrame(s, target);
    case Step => StepChained(s);
    case TaskJoined(t) => JoinChained(s, t);
    case RootRun(closing) =>
    case SetEmpty =>
    case _ => EnvironmentChained(s, a);
  }

  lemma {:induction false} RunsChained(s: State, actions: seq<Action>, s': State)
    requires Controlled(s) && Chained(s) && Runs(s, actions, s') && s'.timers == 0
    ensures Controlled(s') && Chained(s')
    decreases |actions|
  {
    hide Next, OneExecutes, BorrowMatches, Partitioned, TimersCounted, Links, Owners;
    if actions != [] {
      var next := Next(s, actions[0]);
      NextControlled(s, actions[0]);
      TimersOnlyGrow(next, actions[1..], s');
      NextChained(s, actions[0]);
      RunsChained(next, actions[1..], s');
    }
  }

  lemma InitChained()
    ensures Controlled(Init()) && Chained(Init())
  {
  }

  lemma ReachableChained(s: State)
    requires Reachable(s) && s.timers == 0
    ensures Controlled(s) && Chained(s)
  {
    InitChained();
    hide Init, Controlled, Chained;
    var actions :| Runs(Init(), actions, s);
    RunsChained(Init(), actions, s);
  }

  // ---- what the chains say ---------------------------------------------------------------

  ghost predicate OwnsOneTask(s: State, f: nat) {
    exists t :: t in s.tasks && s.tasks[t].owner == f && (forall u | u in s.tasks && s.tasks[u].owner == f :: u == t)
  }

  ghost predicate IsLiveChild(s: State, f: nat, c: nat) {
    f < c < |s.fibers| && s.fibers[c].parent == Some(f) && Unfinished(s.fibers[c].pc)
  }

  ghost predicate HasOneLiveChild(s: State, f: nat) {
    exists c :: IsLiveChild(s, f, c) && (forall d | IsLiveChild(s, f, d) :: d == c)
  }

  ghost predicate IsParked(s: State, f: nat) {
    f < |s.fibers| && s.fibers[f].pc.Parked?
  }

  ghost predicate IsStranded(s: State, f: nat) {
    && f < |s.fibers| && s.fibers[f].pc.Awaiting?
    && s.fibers[f].pc.task in s.joined && s.joined[s.fibers[f].pc.task] == JoinFailed
  }

  /** Every suspended fiber that is alive waits in exactly one way. */
  lemma WaitsInOneWay(s: State, f: nat)
    requires Reachable(s) && s.timers == 0
    requires 0 < f < |s.fibers| && f != s.current && !s.fibers[f].pc.Terminated?
    ensures OwnsOneTask(s, f) || HasOneLiveChild(s, f) || IsParked(s, f) || IsStranded(s, f)
    ensures OwnsOneTask(s, f) ==> !HasOneLiveChild(s, f) && !IsParked(s, f) && !IsStranded(s, f)
    ensures HasOneLiveChild(s, f) ==> !IsParked(s, f) && !IsStranded(s, f)
    ensures IsParked(s, f) ==> !IsStranded(s, f)
  {
    ReachableChained(s);
    hide Links, WellFormed;
    assert forall c | IsLiveChild(s, f, c) :: s.fibers[f].pc == Nesting(c) by {
      forall c | IsLiveChild(s, f, c) ensures s.fibers[f].pc == Nesting(c) {
        ChildOf(s.fibers, c);
      }
    }
    match s.fibers[f].pc
    case Awaiting(t) => assert Awaited(s.fibers, s.tasks, s.joined, f);
    case Nesting(c) =>
      ChildOf(s.fibers, f);
      assert IsLiveChild(s, f, c);
    case Parked =>
    case Executing =>
  }

  lemma ChildOf(fs: seq<Fiber>, f: nat)
    requires Links(fs) && 0 < f < |fs|
    ensures FiberLinked(fs, f)
  {
  }

  /** Where the wait chain of `f` ends. */
  ghost function ChainEnd(fs: seq<Fiber>, f: nat): (e: nat)
    requires Links(fs) && 0 < f < |fs|
    ensures 0 < e < |fs| && !fs[e].pc.Nesting?
    ensures Unfinished(fs[f].pc) ==> Unfinished(fs[e].pc)
    ensures f <= e && fs[e].tree == fs[f].tree
    decreases |fs| - f
  {
    assert FiberLinked(fs, f);
    if fs[f].pc.Nesting? then
      assert FiberLinked(fs, fs[f].pc.child);
      ChainEnd(fs, fs[f].pc.child)
    else f
  }

  /** Every wait chain is finite and ends, within its own tree, at the current fiber, at the owner of
      the one task awaited, or at a fiber stranded by a failed join. */
  lemma ChainsEnd(s: State, f: nat)
    requires Reachable(s) && s.timers == 0 && 0 < f < |s.fibers| && Unfinished(s.fibers[f].pc)
    ensures Links(s.fibers)
    ensures var e := ChainEnd(s.fibers, f); e == s.current || OwnsOneTask(s, e) || IsStranded(s, e)
  {
    ReachableChained(s);
    hide Links, WellFormed;
    var e := ChainEnd(s.fibers, f);
    if e != s.current {
      assert Awaited(s.fibers, s.tasks, s.joined, e);
    }
  }

  /** Parent links are injective on unfinished children: nobody waits for two, nobody is awaited twice. */
  lemma LinksInjective(s: State, f: nat, g: nat, p: nat)
    requires Reachable(s) && s.timers == 0
    requires IsLiveChild(s, p, f) && IsLiveChild(s, p, g)
    ensures f == g
  {
    ReachableChained(s);
    ChildOf(s.fibers, f);
    ChildOf(s.fibers, g);
  }

  /** The three check_suspended calls made before a transfer cannot fail: towards root from a hook,
      towards the parent at the end of a nested block, towards the owner of a finished task. */
  lemma TransfersAreSafe(s: State)
    requires Reachable(s) && s.timers == 0
    ensures s.current != ROOT ==> CheckSuspended(s, ROOT) == None
    ensures s.current != ROOT && s.fibers[s.current].parent.Some? ==>
      s.fibers[s.current].parent.value < |s.fibers| && CheckSuspended(s, s.fibers[s.current].parent.value) == None
    ensures forall t | t in s.tasks && s.rootPc == Joining ::
      s.tasks[t].owner < |s.fibers| && CheckSuspended(s, s.tasks[t].owner) == None
  {
    ReachableChained(s);
    if s.current != ROOT && s.fibers[s.current].parent.Some? {
      ChildEnds(s.fibers, s.current);
    }
  }

  /** A nested Fiber.schedule does not return before its block is complete: as long as the child is
      unfinished, the parent stands at the transfer to it and does not run. */
  lemma ParentWaitsForChild(s: State, f: nat, c: nat)
    requires Reachable(s) && s.timers == 0 && 0 < f && IsLiveChild(s, f, c)
    ensures s.fibers[f].pc == Nesting(c) && f != s.current
  {
    ReachableChained(s);
    ChildOf(s.fibers, c);
  }

  lemma BlockSuspends(s: State, timed: bool)
    requires Controlled(s) && Chained(s) && s.current != ROOT
    ensures RootHears(s, BlockCurrent(s, timed), Ok(Nil))
    ensures var f, r := s.current, BlockCurrent(s, timed);
      r == s.(current := ROOT, raised := None, rootPc := r.rootPc, ret := r.ret, closing := r.closing,
              runtimeOpen := r.runtimeOpen, borrowed := r.borrowed,
              fibers := s.fibers[f := s.fibers[f].(pc := Awaiting(s.spawned))],
              tasks := s.tasks[s.spawned := Task(f, Blocking(|s.chans|, timed), if s.runtimeOpen then Pending else Crashed, false)],
              spawned := s.spawned + 1,
              blockers := s.blockers[f := |s.chans|],
              chans := DropSender(s, f) + [Chan(f, if s.runtimeOpen then Open else Closed)])
  {
    hide SpawnAndTransfer, Links, Owners, Partitioned, TimersCounted, OneExecutes, DropSender;
    var ch := |s.chans|;
    assert !s.borrowed;
    var chans := DropSender(s, s.current) + [Chan(s.current, if s.runtimeOpen then Open else Closed)];
    HookSuspends(s.(blockers := s.blockers[s.current := ch], chans := chans), Blocking(ch, timed));
  }

  /** When `run` returns Ok and no join failed, every block ever scheduled, at any depth, has
      completed: nested fibers are parked, root-scheduled ones terminated. */
  lemma DrainCompletes(s: State)
    requires Reachable(s) && s.timers == 0 && Enabled(s, SetEmpty)
    requires forall t | t in s.joined :: s.joined[t] != JoinFailed
    ensures Next(s, SetEmpty).ret == Some(Ok(Nil)) && Next(s, SetEmpty).rootPc == Idle
    ensures forall f | 0 < f < |s.fibers| :: s.fibers[f].pc.Parked? || s.fibers[f].pc.Terminated?
  {
    ReachableChained(s);
    forall f | 0 < f < |s.fibers| ensures s.fibers[f].pc.Parked? || s.fibers[f].pc.Terminated? {
      if Unfinished(s.fibers[f].pc) {
        ChainsEnd(s, f);
      }
    }
  }
}
