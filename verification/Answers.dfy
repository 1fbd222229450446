/** What the callers are told: the root program by Fiber.schedule and by `run`, and whoever calls unblock. */
module Answers {
  import opened Scripts
  import opened Machine
  import opened Control
  import opened WaitChains
  import opened Listeners
  import opened Refinement
  import opened Progress
  import opened Loop

  // ---- one step of a tree ---------------------------------------------------------------------------

  ghost predicate SameVerdicts(trees: map<nat, Tree>, trees': map<nat, Tree>) {
    trees'.Keys == trees.Keys && forall t | t in trees :: trees'[t].verdict == trees[t].verdict
  }

  /** The current fiber, or another of its tree, goes on. */
  ghost predicate GoesOn(s: State, r: State, t: nat) {
    && r.current != ROOT && r.current < |r.fibers| && r.fibers[r.current].tree == t
    && r.rootPc == s.rootPc && SameVerdicts(s.trees, r.trees)
  }

  /** The tree suspends: root hears nothing but that. */
  ghost predicate TreeSuspends(s: State, r: State) {
    SameVerdicts(s.trees, r.trees) && RootHears(s, r, Ok(Nil))
  }

  /** The tree has ended with `res`, and that is what root hears. */
  ghost predicate TreeEndsWith(s: State, r: State, t: nat, res: Outcome) {
    && t in s.trees && r.trees == s.trees[t := s.trees[t].(verdict := Some(res))]
    && RootHears(s, r, res)
  }

  ghost predicate Heard(s: State, r: State, t: nat) {
    GoesOn(s, r, t) || TreeSuspends(s, r) || exists res :: TreeEndsWith(s, r, t, res)
  }

  lemma EndBodyHeard(s: State, res: Outcome)
    requires Controlled(s) && Chained(s) && Sequential(s) && s.current != ROOT
    ensures Heard(s, EndBody(s, res), s.fibers[s.current].tree)
  {
    CurrentTracks(s);
    ChildOf(s.fibers, s.current);
    var f, r := s.current, EndBody(s, res);
    if s.fibers[f].parent.None? {
      RootBodyEnds(s, res);
      hide EndBody, Controlled, Chained, Sequential, RootHears, Tracks;
      assert TreeEndsWith(s, r, s.fibers[f].tree, res);
    } else {
      NestedBodyReturns(s, res);
      hide EndBody, Controlled, Chained, Sequential, Tracks;
      assert GoesOn(s, r, s.fibers[f].tree);
    }
  }

  lemma ContinueHeard(s: State, q: State, cont: seq<Item>, raised: Option<Error>, events: seq<Event>)
    requires WellFormed(q) && q.fibers == s.fibers && q.trees == s.trees && q.rootPc == s.rootPc
    requires q.current == s.current && s.current != ROOT
    ensures Heard(s, Continue(q, cont, raised, events), s.fibers[s.current].tree)
  {
    assert GoesOn(s, Continue(q, cont, raised, events), s.fibers[s.current].tree);
  }

  lemma NestHeard(s: State, body: seq<Op>)
    requires WellFormed(s) && s.current != ROOT
    ensures Heard(s, FiberImpl(s, body), s.fibers[s.current].tree)
  {
    hide Lift, Tail, ParentsInRange, TasksInRange, SendersInRange;
    assert GoesOn(s, FiberImpl(s, body), s.fibers[s.current].tree);
  }

  /** The operations that only rewrite what is left of the current fiber. */
  lemma UnfoldHeard(s: State)
    requires WellFormed(s) && s.current != ROOT && s.raised.None?
    requires var k := s.fibers[s.current].cont;
      k != [] && (k[0].Catch? || k[0].op.Emit? || k[0].op.Raise? || k[0].op.Rescue?)
    ensures Heard(s, Advance(s), s.fibers[s.current].tree)
  {
    var k := s.fibers[s.current].cont;
    hide Continue, EndBody, FiberImpl, SpawnAndTransfer, BlockCurrent, UnblockFiber, Spawn, Unwind, Lift, Heard, WellFormed;
    match k[0]
    case Do(Rescue(body, handler)) => ContinueHeard(s, s, Lift(body) + [Catch(handler)] + k[1..], None, []);
    case Do(Emit(n)) => ContinueHeard(s, s, k[1..], None, [Out(n)]);
    case Do(Raise(e)) => ContinueHeard(s, s, k[1..], Some(e), []);
    case Catch(_) => ContinueHeard(s, s, k[1..], None, []);
  }

  lemma HookHeard(s: State)
    requires Controlled(s) && Chained(s) && s.current != ROOT
    ensures Heard(s, SpawnAndTransfer(s, External), s.fibers[s.current].tree)
    ensures forall timed :: Heard(s, BlockCurrent(s, timed), s.fibers[s.current].tree)
  {
    HookSuspends(s, External);
    hide SpawnAndTransfer, BlockCurrent, Controlled, Chained, RootHears, Heard;
    SuspendHeard(s, SpawnAndTransfer(s, External));
    forall timed ensures Heard(s, BlockCurrent(s, timed), s.fibers[s.current].tree) {
      BlockSuspends(s, timed);
      SuspendHeard(s, BlockCurrent(s, timed));
    }
  }

  lemma SuspendHeard(s: State, r: State)
    requires s.current < |s.fibers| && r.trees == s.trees && RootHears(s, r, Ok(Nil))
    ensures Heard(s, r, s.fibers[s.current].tree)
  {
    hide RootHears;
    assert TreeSuspends(s, r);
  }

  /** Every step of a fiber leaves control in its tree, or suspends the tree, or ends it, and root hears
      accordingly. */
  lemma StepHeard(s: State)
    requires Controlled(s) && Chained(s) && Sequential(s) && s.current != ROOT && Advance(s).timers == 0
    ensures Heard(s, Advance(s), s.fibers[s.current].tree)
  {
    assert WellFormed(s);
    var k := s.fibers[s.current].cont;
    hide Continue, EndBody, FiberImpl, SpawnAndTransfer, BlockCurrent, UnblockFiber, Unwind, Spawn, Lift, Controlled, Chained,
         Sequential, Heard, ParentsInRange, TasksInRange, SendersInRange;
    if s.raised.Some? {
      if Unwind(k).Some? { ContinueHeard(s, s, Unwind(k).value, None, []); } else { EndBodyHeard(s, Err(s.raised.value)); }
    } else if k == [] {
      EndBodyHeard(s, Ok(Nil));
    } else {
      match k[0]
      case Do(Schedule(body)) => NestHeard(s, body);
      case Do(Await) => HookHeard(s);
      case Do(Block(timed)) => HookHeard(s);
      case Do(Unblock(target)) =>
        UnblockFrame(s, target);
        var (s1, res) := UnblockFiber(s, target);
        ContinueHeard(s, s1, Tail(s1.fibers[s1.current].cont), ErrorOf(res), [In(res)]);
      case Do(TimeoutAfter(body)) => StartsTimer(s, body);
      case _ => UnfoldHeard(s);
    }
  }

  lemma FibersTimersGrow(s: State)
    requires Controlled(s)
    ensures s.timers <= RunFibers(s).timers
  {
    var actions := RunFibersRuns(s);
    hide RunFibers;
    TimersOnlyGrow(s, actions, RunFibers(s));
  }

  /** One step of the tree that runs, with all that is known of the state after it. */
  lemma StepKeepsAll(s: State)
    requires Controlled(s) && Chained(s) && Sequential(s) && s.current != ROOT && Advance(s).timers == 0
    ensures var r := Advance(s); Controlled(r) && Chained(r) && Sequential(r) && Heard(s, r, s.fibers[s.current].tree)
  {
    StepControlled(s);
    StepChained(s);
    StepSequential(s);
    StepHeard(s);
  }

  // ---- Fiber.schedule from root -----------------------------------------------------------------------

  /** What Fiber.schedule returns to root, by what became of the tree it started. */
  ghost predicate ScheduleTold(r: State, t: nat) {
    && r.rootPc == Idle && t in r.trees && r.ret.Some?
    && (forall e :: r.ret == Some(Err(e)) <==> r.trees[t].verdict == Some(Err(e)))
    && (r.ret.value.Ok? <==> r.trees[t].verdict.None? || r.trees[t].verdict.value.Ok?)
  }

  /** The tree `t` that root has just scheduled is running. */
  ghost predicate JustScheduled(s: State, t: nat) {
    && s.current != ROOT && s.rootPc == Scheduling && s.current < |s.fibers| && s.fibers[s.current].tree == t
    && t in s.trees && s.trees[t].verdict.None?
  }

  lemma ScheduleStep(s: State, r: State, t: nat)
    requires JustScheduled(s, t) && Heard(s, r, t)
    ensures if r.current == ROOT then ScheduleTold(r, t) else JustScheduled(r, t)
  {
    if TreeSuspends(s, r) {
      assert r.current == ROOT;
    }
  }

  lemma {:induction false} RunFibersTells(s: State, t: nat)
    requires Controlled(s) && Chained(s) && Sequential(s) && JustScheduled(s, t) && RunFibers(s).timers == 0
    ensures ScheduleTold(RunFibers(s), t)
    decreases Work(s)
  {
    StepControlled(s);
    StepWork(s);
    var next := Advance(s);
    assert RunFibers(s) == RunFibers(next) by { StepFirst(s); }
    FibersTimersGrow(next);
    StepKeepsAll(s);
    assert s.current < |s.fibers| && s.fibers[s.current].tree == t && next.current < |next.fibers|;
    ScheduleStep(s, next, t);
    if next.current == ROOT {
      SameAtRoot(next);
    } else {
      hide Advance, Controlled, Chained, Sequential, JustScheduled, RunFibers, Work, Heard, GoesOn;
      RunFibersTells(next, t);
    }
  }

  /** Fiber.schedule called by root: control is back when the tree it started has ended or waits. It
      returns an error exactly if the tree has ended with that error, and a value exactly if the tree has
      ended with one or still waits. */
  lemma ScheduleAnswers(s: State, script: seq<Op>)
    requires Reachable(s) && Enabled(s, RootSchedule(script))
    ensures Controlled(Next(s, RootSchedule(script)))
    ensures var r, t := RunFibers(Next(s, RootSchedule(script))), |s.fibers|;
      r.timers == 0 ==> ScheduleTold(r, t)
  {
    ReachableControlled(s);
    var a := RootSchedule(script);
    NextControlled(s, a);
    var s1 := Next(s, a);
    assert JustScheduled(s1, |s.fibers|) && s1.timers == s.timers;
    FibersTimersGrow(s1);
    if RunFibers(s1).timers == 0 {
      ReachableSequential(s);
      NextChained(s, a);
      NextSequential(s, a);
      hide Next, Controlled, Chained, Sequential, JustScheduled, RunFibers, Reachable, ScheduleTold;
      RunFibersTells(s1, |s.fibers|);
    }
  }

  // ---- run -------------------------------------------------------------------------------------------

  /** Tree `t` had not ended when the call began, and has ended with an error since. */
  ghost predicate HasFailed(before: map<nat, Tree>, trees: map<nat, Tree>, t: nat) {
    && t in before && before[t].verdict.None? && t in trees
    && trees[t].verdict.Some? && trees[t].verdict.value.Err?
  }

  /** What a call of `run` has been told, and tells. While it goes on, no tree has failed since it began.
      When it has returned, a tree that failed is the reason, and without one an error is an interrupt. */
  ghost predicate RunTold(before: map<nat, Tree>, s: State, env: seq<Action>) {
    if s.rootPc != Idle then
      forall t :: !HasFailed(before, s.trees, t)
    else
      && (forall t | HasFailed(before, s.trees, t) :: s.ret == s.trees[t].verdict)
      && (s.ret.Some? && s.ret.value.Err? ==>
            Interrupted(s.ret.value.error) in env || exists t :: HasFailed(before, s.trees, t) && s.ret == s.trees[t].verdict)
  }

  /** Inside `run` a fiber runs only because it was resumed. */
  ghost predicate Resumed(s: State) {
    s.current != ROOT ==> s.rootPc == Delivering
  }

  lemma SameVerdictsFail(before: map<nat, Tree>, trees: map<nat, Tree>, trees': map<nat, Tree>)
    requires SameVerdicts(trees, trees')
    ensures forall t :: HasFailed(before, trees', t) <==> HasFailed(before, trees, t)
    ensures forall t | HasFailed(before, trees, t) :: trees'[t].verdict == trees[t].verdict
  {
  }

  lemma StepTold(before: map<nat, Tree>, s: State, r: State, t: nat, env: seq<Action>)
    requires RunTold(before, s, env) && s.current != ROOT && s.rootPc == Delivering && Heard(s, r, t)
    requires t in s.trees && s.trees[t].verdict.None? && t in before && before[t].verdict.None?
    ensures RunTold(before, r, env) && Resumed(r)
  {
    if exists res :: TreeEndsWith(s, r, t, res) {
      var res :| TreeEndsWith(s, r, t, res);
      assert forall u | u != t :: HasFailed(before, r.trees, u) <==> HasFailed(before, s.trees, u);
      assert HasFailed(before, r.trees, t) <==> res.Err?;
    } else {
      SameVerdictsFail(before, s.trees, r.trees);
    }
  }

  /** Trees only end: none is forgotten, none starts, and an end is final. */
  ghost predicate EndsAreFinal(before: map<nat, Tree>, trees: map<nat, Tree>) {
    trees.Keys == before.Keys && forall t | t in before && before[t].verdict.Some? :: trees[t].verdict == before[t].verdict
  }

  /** All that is known in the middle of a call of `run`. */
  ghost predicate InCall(before: map<nat, Tree>, s: State, env: seq<Action>) {
    && Controlled(s) && Chained(s) && Sequential(s)
    && Resumed(s) && RunTold(before, s, env) && EndsAreFinal(before, s.trees)
  }

  lemma StepFinal(before: map<nat, Tree>, s: State, r: State, t: nat)
    requires EndsAreFinal(before, s.trees) && Heard(s, r, t) && t in s.trees && s.trees[t].verdict.None?
    ensures EndsAreFinal(before, r.trees)
  {
  }

  lemma StepInCall(before: map<nat, Tree>, s: State, env: seq<Action>)
    requires InCall(before, s, env) && s.current != ROOT && Advance(s).timers == 0
    ensures InCall(before, Advance(s), env)
  {
    var t, r := s.fibers[s.current].tree, Advance(s);
    CurrentTracks(s);
    StepKeepsAll(s);
    assert s.rootPc == Delivering;
    hide Advance, Controlled, Chained, Sequential, Tracks, Heard, RunTold, EndsAreFinal, Resumed;
    StepFinal(before, s, r, t);
    assert before[t].verdict.None? && t in before by { NotEndedBefore(before, s.trees, t); }
    StepTold(before, s, r, t, env);
  }

  lemma NotEndedBefore(before: map<nat, Tree>, trees: map<nat, Tree>, t: nat)
    requires EndsAreFinal(before, trees) && t in trees && trees[t].verdict.None?
    ensures t in before && before[t].verdict.None?
  {
  }

  lemma {:induction false} RunFibersInCall(before: map<nat, Tree>, s: State, env: seq<Action>)
    requires InCall(before, s, env) && RunFibers(s).timers == 0
    ensures InCall(before, RunFibers(s), env)
    decreases Work(s)
  {
    if s.current == ROOT {
      SameAtRoot(s);
    } else {
      StepControlled(s);
      StepWork(s);
      StepFirst(s);
      var next := Advance(s);
      FibersTimersGrow(next);
      hide Advance, Controlled, Chained, Sequential, RunFibers, Work, Resumed, RunTold, EndsAreFinal;
      StepInCall(before, s, env);
      RunFibersInCall(before, next, env);
    }
  }

  lemma JoinedVerdicts(s: State, t: nat)
    requires Controlled(s) && Chained(s) && Enabled(s, TaskJoined(t))
    ensures var r := Join(s, t);
      SameVerdicts(s.trees, r.trees) && Resumed(r) && (r.rootPc == Joining || r.rootPc == Delivering)
  {
    if s.tasks[t].phase.Crashed? { JoinStrands(s, t); } else { JoinDelivers(s, t, s.tasks[t].phase.res); }
    hide Join, Controlled, Chained, Tail;
  }

  /** The environment ends a call of `run` by an interrupt only. */
  lemma EventVerdicts(s: State, a: Action)
    requires Controlled(s) && Chained(s) && s.rootPc == Joining && IsLoopEvent(a) && Enabled(s, a) && Next(s, a).timers == 0
    ensures var r := Next(s, a);
      && SameVerdicts(s.trees, r.trees) && Resumed(r)
      && if a.Interrupted? then r.rootPc == Idle && r.ret == Some(Err(a.error))
         else r.rootPc == Joining || r.rootPc == Delivering
  {
    assert WellFormed(s) && s.timers == 0 && s.current == ROOT;
    assert !a.TimerFires?;
    hide Join, Controlled, Chained, ParentsInRange, TasksInRange, SendersInRange, Advance, FiberImpl, UnblockFiber, FireTimer,
         DropReceiver, DropSender;
    if a.TaskJoined? {
      JoinedVerdicts(s, a.task);
    } else {
      EnvironmentFrame(s, a);
    }
  }

  lemma EventInCall(before: map<nat, Tree>, s: State, a: Action, env: seq<Action>)
    requires InCall(before, s, env) && s.rootPc == Joining && IsLoopEvent(a) && a in env
    requires Enabled(s, a) && Next(s, a).timers == 0
    ensures InCall(before, Next(s, a), env)
  {
    var r := Next(s, a);
    NextControlled(s, a);
    NextChained(s, a);
    NextSequential(s, a);
    EventVerdicts(s, a);
    hide Next, Enabled, Controlled, Chained, Sequential, Resumed;
    SameVerdictsFail(before, s.trees, r.trees);
  }

  lemma LoopTimersGrow(s: State, env: seq<Action>)
    requires Controlled(s) && s.current == ROOT
    ensures s.timers <= RunLoop(s, env).timers
  {
    var actions := RunLoopRuns(s, env);
    hide RunLoop;
    TimersOnlyGrow(s, actions, RunLoop(s, env));
  }

  lemma RoundInCall(before: map<nat, Tree>, s: State, a: Action, env: seq<Action>)
    requires InCall(before, s, env) && s.rootPc == Joining && IsLoopEvent(a) && a in env
    requires Enabled(s, a) && Round(s, a).timers == 0
    ensures InCall(before, Round(s, a), env)
  {
    NextControlled(s, a);
    FibersTimersGrow(Next(s, a));
    hide Next, Enabled, InCall, Controlled, RunFibers;
    EventInCall(before, s, a, env);
    RunFibersInCall(before, Next(s, a), env);
  }

  lemma EmptyInCall(before: map<nat, Tree>, s: State, env: seq<Action>)
    requires InCall(before, s, env) && s.rootPc == Joining && s.tasks == map[]
    ensures Enabled(s, SetEmpty) && InCall(before, Round(s, SetEmpty), env)
  {
    NextControlled(s, SetEmpty);
    NextChained(s, SetEmpty);
    NextSequential(s, SetEmpty);
    SameAtRoot(Next(s, SetEmpty));
    hide Links, Owners, FibersOk, TreesOk, OneExecutes, TasksAccounted, RunFibers;
  }

  lemma {:induction false} LoopInCall(before: map<nat, Tree>, s: State, env: seq<Action>, all: seq<Action>)
    requires InCall(before, s, all) && s.current == ROOT && RunLoop(s, env).timers == 0
    requires forall a | a in env :: a in all
    ensures InCall(before, RunLoop(s, env), all)
    decreases |env|
  {
    assert Controlled(s);
    hide InCall, Round, Enabled, OneExecutes, BorrowMatches, TasksAccounted;
    if s.rootPc == Joining {
      if env != [] && IsLoopEvent(env[0]) && Enabled(s, env[0]) {
        LoopTimersGrow(Round(s, env[0]), env[1..]);
        RoundInCall(before, s, env[0], all);
        LoopInCall(before, Round(s, env[0]), env[1..], all);
      } else if s.tasks == map[] {
        EmptyInCall(before, s, all);
      } else if env != [] {
        LoopInCall(before, s, env[1..], all);
      }
    }
  }

  /** Why a call of `run` returns an error, exactly. If a tree fails during the call, the call has returned
      that tree's error. If it has returned an error, a tree has failed with it during the call, or it is
      the error of an interrupt. A value that a fiber ends with, and a suspension, never end the call. */
  lemma RunErrorsExplained(s: State, closing: bool, env: seq<Action>)
    requires Reachable(s) && Controlled(s) && Enabled(s, RootRun(closing)) && s.runtimeOpen
    requires RunCall(s, closing, env).timers == 0
    ensures var r := RunCall(s, closing, env);
      && (r.rootPc == Idle || r.rootPc == Joining)
      && (forall t | HasFailed(s.trees, r.trees, t) :: r.rootPc == Idle && r.ret == r.trees[t].verdict)
      && (r.rootPc == Idle && r.ret.Some? && r.ret.value.Err? ==>
            || Interrupted(r.ret.value.error) in env
            || exists t :: HasFailed(s.trees, r.trees, t) && r.ret == r.trees[t].verdict)
  {
    var a := RootRun(closing);
    NextControlled(s, a);
    var s1 := Next(s, a);
    LoopTimersGrow(s1, env);
    ReachableSequential(s);
    NextChained(s, a);
    NextSequential(s, a);
    assert RunTold(s.trees, s1, env) && Resumed(s1) && EndsAreFinal(s.trees, s1.trees);
    LoopInCall(s.trees, s1, env, env);
    var r := RunCall(s, closing, env);
    assert r == RunLoop(s1, env);
    hide Next, Enabled, Chained, Sequential, RunLoop, RunCall;
  }

  // ---- unblock ---------------------------------------------------------------------------------------

  ghost predicate IsSuspended(s: State, f: nat) {
    f < |s.fibers| && if f == ROOT then RootSuspended(s.rootPc) else FiberSuspended(s.fibers[f].pc)
  }

  /** The map has an entry for `f`, and nobody holds its receiver. */
  ghost predicate IsStale(s: State, f: nat) {
    f in s.blockers && forall t | t in s.tasks && PendingBlock(s.tasks[t]) :: s.tasks[t].kind.chan != s.blockers[f]
  }

  /** The answer to unblock(f), read off the state. */
  ghost predicate Answer(s: State, f: nat, res: Outcome) {
    match res
    case Ok(v) => v == Nil && IsSuspended(s, f) && !IsStale(s, f)
    case Err(NoConversion) => f >= |s.fibers|
    case Err(FiberNotAlive) => 0 < f < |s.fibers| && s.fibers[f].pc.Terminated?
    case Err(FiberActive) =>
      f < |s.fibers| && if f == ROOT then s.rootPc == Idle || s.rootPc == Joining else s.fibers[f].pc.Executing?
    case Err(CouldNotUnblock) => IsSuspended(s, f) && IsStale(s, f)
    case _ => false
  }

  /** The answers do not overlap and leave no case out: exactly one is right, and unblock gives it. */
  lemma UnblockAnswers(s: State, f: nat, res: Outcome)
    requires Reachable(s)
    ensures f in s.blockers ==> s.blockers[f] < |s.chans|
    ensures Answer(s, f, res) <==> UnblockFiber(s, f).1 == res
    ensures var r := UnblockFiber(s, f).0;
      r == s.(blockers := r.blockers, chans := r.chans)
      && r.blockers == (if IsSuspended(s, f) then s.blockers - {f} else s.blockers)
      && (res.Err? && Answer(s, f, res) ==> r.chans == s.chans)
      && (res.Ok? && Answer(s, f, res) ==>
            r.chans == if f in s.blockers then SetChan(s.chans, s.blockers[f], Signalled) else s.chans)
  {
    ReachableListening(s);
    UnblockFrame(s, f);
    StaleExactly(s, f);
    hide Listening, IsStale, TasksAccounted, ParentsInRange, TasksInRange, SetChan;
    assert f !in s.blockers ==> s.blockers - {f} == s.blockers;
    if f < |s.fibers| {
      SuspendedExactly(s, f);
    }
  }

  lemma StaleExactly(s: State, f: nat)
    requires Listening(s)
    ensures f in s.blockers ==> s.blockers[f] < |s.chans| && (IsStale(s, f) <==> s.chans[s.blockers[f]].state != Open)
    ensures f !in s.blockers ==> !IsStale(s, f)
  {
    if f in s.blockers {
      var ch := s.blockers[f];
      if s.chans[ch].state.Open? {
        var t :| t in Blocks(s.tasks) && Blocks(s.tasks)[t] == ch;
        assert PendingBlock(s.tasks[t]);
      } else {
        forall t | t in s.tasks && PendingBlock(s.tasks[t]) ensures s.tasks[t].kind.chan != ch {
          assert t in Blocks(s.tasks);
        }
      }
    }
  }

  /** A fiber that calls unblock goes on at once, and sees the right answer: as the result of the call,
      and as an exception if it is an error. */
  lemma FiberHearsAnswer(s: State, f: nat, res: Outcome)
    requires Reachable(s) && s.current != ROOT && s.raised.None? && Answer(s, f, res)
    requires s.fibers[s.current].cont != [] && s.fibers[s.current].cont[0] == Do(Unblock(f))
    ensures Enabled(s, Step)
    ensures var r, x := Next(s, Step), s.fibers[s.current];
      && r.current == s.current && r.rootPc == s.rootPc && r.tasks == s.tasks
      && r.fibers == s.fibers[s.current := x.(cont := x.cont[1..])]
      && r.raised == (if res.Err? then Some(res.error) else None)
      && (s.timers == 0 ==> x.tree in s.trees && x.tree in r.trees && r.trees[x.tree].log == s.trees[x.tree].log + [In(res)])
  {
    UnblockAnswers(s, f, res);
    UnblockFrame(s, f);
    if s.timers == 0 {
      ReachableSequential(s);
      CurrentTracks(s);
    }
    hide UnblockFiber, Answer, Tracks, Controlled, Chained, Sequential, ParentsInRange, TasksInRange, SendersInRange,
         EndBody, FiberImpl, SpawnAndTransfer, BlockCurrent, Unwind;
  }

  /** And so does the root program, as the result of its call. */
  lemma RootHearsAnswer(s: State, f: nat, res: Outcome)
    requires Reachable(s) && Enabled(s, RootUnblock(f)) && Answer(s, f, res)
    ensures var r := Next(s, RootUnblock(f));
      r.ret == Some(res) && r.rootPc == Idle && r.fibers == s.fibers && r.tasks == s.tasks
  {
    UnblockAnswers(s, f, res);
    UnblockFrame(s, f);
    hide UnblockFiber, Answer;
  }
}
