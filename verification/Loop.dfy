/** What one call of `run` does, as a function of what the environment does meanwhile. */
module Loop {
  import opened Scripts
  import opened Machine
  import opened Control
  import opened WaitChains
  import opened Progress

  /** What can happen while `run` awaits join_next, short of the set being empty. */
  predicate IsLoopEvent(a: Action) {
    IsEnvironment(a) || a.TimerFires? || a.TaskJoined?
  }

  /** Fibers run until control is back at root. */
  ghost function RunFibers(s: State): (r: State)
    requires Controlled(s)
    ensures Controlled(r) && r.current == ROOT
    decreases Work(s)
  {
    if s.current == ROOT then s
    else
      StepControlled(s);
      StepWork(s);
      RunFibers(Advance(s))
  }

  /** One round of the loop in which `a` happens: it returns to waiting, or `run` has returned. */
  ghost function Round(s: State, a: Action): (r: State)
    requires Controlled(s) && s.rootPc == Joining && Enabled(s, a)
    ensures Controlled(r) && r.current == ROOT
  {
    NextControlled(s, a);
    RunFibers(Next(s, a))
  }

  /** The loop, fed with what the environment would like to happen; what cannot happen is skipped. The
      result still waits (Joining) only if `env` is used up. */
  ghost function RunLoop(s: State, env: seq<Action>): (r: State)
    requires Controlled(s) && s.current == ROOT
    ensures Controlled(r) && r.current == ROOT
    decreases |env|
  {
    if s.rootPc != Joining then s
    else if env != [] && IsLoopEvent(env[0]) && Enabled(s, env[0]) then RunLoop(Round(s, env[0]), env[1..])
    else if s.tasks == map[] then Round(s, SetEmpty)
    else if env == [] then s
    else RunLoop(s, env[1..])
  }

  lemma RunLoopStep(s: State, env: seq<Action>, i: nat)
    requires Controlled(s) && s.current == ROOT && s.rootPc == Joining && i < |env|
    ensures RunLoop(s, env[i..]) ==
      if IsLoopEvent(env[i]) && Enabled(s, env[i]) then RunLoop(Round(s, env[i]), env[i + 1..])
      else if s.tasks == map[] then Round(s, SetEmpty)
      else RunLoop(s, env[i + 1..])
  {
    hide Round, Enabled, OneExecutes, BorrowMatches, TasksAccounted;
    assert env[i..][1..] == env[i + 1..];
  }

  ghost function RunCall(s: State, closing: bool, env: seq<Action>): (r: State)
    requires Controlled(s) && Enabled(s, RootRun(closing))
    ensures Controlled(r) && r.current == ROOT
  {
    NextControlled(s, RootRun(closing));
    RunLoop(Next(s, RootRun(closing)), env)
  }

  lemma {:induction false} RunFibersRuns(s: State) returns (actions: seq<Action>)
    requires Controlled(s)
    ensures Runs(s, actions, RunFibers(s))
    decreases Work(s)
  {
    actions := [];
    if s.current != ROOT {
      StepControlled(s);
      StepWork(s);
      hide Advance, OneExecutes, BorrowMatches, TasksAccounted, Work;
      var rest := RunFibersRuns(Advance(s));
      actions := [Step] + rest;
      assert actions[1..] == rest;
      assert Next(s, Step) == Advance(s);
    }
  }

  lemma RoundRuns(s: State, a: Action) returns (actions: seq<Action>)
    requires Controlled(s) && s.rootPc == Joining && Enabled(s, a)
    ensures Runs(s, actions, Round(s, a))
  {
    NextControlled(s, a);
    hide Next, Enabled, Controlled;
    var rest := RunFibersRuns(Next(s, a));
    actions := [a] + rest;
    assert actions[1..] == rest;
  }

  lemma {:induction false} RunLoopRuns(s: State, env: seq<Action>) returns (actions: seq<Action>)
    requires Controlled(s) && s.current == ROOT
    ensures Runs(s, actions, RunLoop(s, env))
    decreases |env|
  {
    hide Next, Round, OneExecutes, BorrowMatches, TasksAccounted;
    actions := [];
    if s.rootPc == Joining {
      if env != [] && IsLoopEvent(env[0]) && Enabled(s, env[0]) {
        var first := RoundRuns(s, env[0]);
        var rest := RunLoopRuns(Round(s, env[0]), env[1..]);
        RunsConcat(s, first, Round(s, env[0]), rest, RunLoop(s, env));
        actions := first + rest;
      } else if s.tasks == map[] {
        actions := RoundRuns(s, SetEmpty);
      } else if env != [] {
        actions := RunLoopRuns(s, env[1..]);
      }
    }
  }

  /** What the environment did in a run. */
  function EventsOf(actions: seq<Action>): seq<Action> {
    if actions == [] then []
    else (if IsLoopEvent(actions[0]) then [actions[0]] else []) + EventsOf(actions[1..])
  }

  lemma EventsOfFirst(actions: seq<Action>)
    requires actions != []
    ensures EventsOf(actions) ==
      if IsLoopEvent(actions[0]) then [actions[0]] + EventsOf(actions[1..]) else EventsOf(actions[1..])
  {
    assert [] + EventsOf(actions[1..]) == EventsOf(actions[1..]);
  }

  ghost predicate NoRootAction(actions: seq<Action>) {
    forall i | 0 <= i < |actions| :: !IsRootAction(actions[i])
  }

  lemma RestIsRun(s: State, actions: seq<Action>, s': State)
    requires Controlled(s) && Runs(s, actions, s') && NoRootAction(actions) && actions != []
    ensures WellFormed(s) && Enabled(s, actions[0]) && Controlled(Next(s, actions[0])) && !IsRootAction(actions[0])
    ensures Runs(Next(s, actions[0]), actions[1..], s') && NoRootAction(actions[1..])
    ensures actions[0] == Step || actions[0] == SetEmpty || IsLoopEvent(actions[0])
    ensures actions[0] != Step ==> s.current == ROOT && s.rootPc == Joining
    ensures actions[0] == Step ==> s.current != ROOT && Next(s, Step) == Advance(s)
  {
    hide Advance, FiberImpl, UnblockFiber, Join, FireTimer, Finish, Crash, Interrupt, OneExecutes, TasksAccounted,
         ParentsInRange, TasksInRange, SendersInRange;
    NextControlled(s, actions[0]);
  }

  /** Between calls nothing happens but what the root program does. */
  lemma IdleStops(s: State, actions: seq<Action>, s': State)
    requires Controlled(s) && s.rootPc == Idle && Runs(s, actions, s') && NoRootAction(actions)
    ensures actions == [] && s' == s
  {
    hide Next, OneExecutes, TasksAccounted;
    if actions != [] {
      RestIsRun(s, actions, s');
    }
  }

  lemma EventThenRest(s: State, a: Action, env: seq<Action>)
    requires Controlled(s) && s.rootPc == Joining && IsLoopEvent(a) && Enabled(s, a)
    ensures RunLoop(s, [a] + env) == RunLoop(Round(s, a), env)
  {
    hide Round, Enabled, OneExecutes, TasksAccounted;
    assert ([a] + env)[1..] == env;
  }

  lemma EmptyThenNothing(s: State)
    requires Controlled(s) && s.rootPc == Joining && s.tasks == map[]
    ensures Enabled(s, SetEmpty) && RunLoop(s, []) == Next(s, SetEmpty)
  {
    NextControlled(s, SetEmpty);
    SameAtRoot(Next(s, SetEmpty));
  }

  /** The loop misses nothing: every run of the machine from a waiting `run` to its return, or to a moment
      at which it waits for a task, is what the loop does with the events of that run. */
  lemma {:induction false} RunLoopIsComplete(s: State, actions: seq<Action>, s': State)
    requires Controlled(s) && Runs(s, actions, s') && NoRootAction(actions)
    requires s'.current == ROOT && (s'.rootPc == Idle || s'.tasks != map[])
    ensures RunLoop(RunFibers(s), EventsOf(actions)) == s'
    decreases |actions|
  {
    if actions == [] {
      hide RunLoop, RunFibers;
      LoopStands(s);
    } else {
      EventsOfFirst(actions);
      hide *;
      var a, rest := actions[0], actions[1..];
      RestIsRun(s, actions, s');
      RunLoopIsComplete(Next(s, a), rest, s');
      if a == Step {
        StepFirst(s);
      } else if a == SetEmpty {
        SetEmptyEnds(s, rest, s');
      } else {
        EventFirst(s, a, EventsOf(rest));
      }
    }
  }

  lemma LoopStands(s: State)
    requires Controlled(s) && s.current == ROOT && (s.rootPc == Idle || s.tasks != map[])
    ensures RunLoop(RunFibers(s), []) == s
  {
    SameAtRoot(s);
  }

  lemma StepFirst(s: State)
    requires Controlled(s) && s.current != ROOT && Controlled(Advance(s))
    ensures RunFibers(s) == RunFibers(Advance(s))
  {
    hide Advance, OneExecutes, BorrowMatches, TasksAccounted, Work;
  }

  lemma EventFirst(s: State, a: Action, env: seq<Action>)
    requires Controlled(s) && s.current == ROOT && s.rootPc == Joining && Enabled(s, a) && IsLoopEvent(a)
    requires Controlled(Next(s, a))
    ensures RunLoop(RunFibers(s), [a] + env) == RunLoop(RunFibers(Next(s, a)), env)
  {
    SameAtRoot(s);
    EventThenRest(s, a, env);
    assert Round(s, a) == RunFibers(Next(s, a));
  }

  lemma SetEmptyEnds(s: State, rest: seq<Action>, s': State)
    requires Controlled(s) && Enabled(s, SetEmpty) && Controlled(Next(s, SetEmpty))
    requires Runs(Next(s, SetEmpty), rest, s') && NoRootAction(rest)
    ensures rest == [] && RunLoop(RunFibers(s), []) == s'
  {
    SameAtRoot(s);
    EmptyThenNothing(s);
    hide RunFibers, RunLoop, Runs;
    IdleStops(Next(s, SetEmpty), rest, s');
  }

  /** Whatever `run` does is a run of the machine, so every theorem about reachable states holds of the
      state it leaves, by any of its exits, and of the next call of `run`. */
  lemma RunCallIsReachable(s: State, closing: bool, env: seq<Action>)
    requires Reachable(s) && Controlled(s) && Enabled(s, RootRun(closing))
    ensures Reachable(RunCall(s, closing, env))
  {
    var a := RootRun(closing);
    NextControlled(s, a);
    var s1 := Next(s, a);
    hide Next, Enabled, Controlled, RunLoop;
    var rest := RunLoopRuns(s1, env);
    assert ([a] + rest)[1..] == rest;
    assert Runs(s, [a] + rest, RunCall(s, closing, env));
    ReachableExtends(s, [a] + rest, RunCall(s, closing, env));
  }

  /** A loop that has come back by itself without an error has emptied the set. */
  lemma {:induction false} OkMeansEmpty(s: State, env: seq<Action>)
    requires Controlled(s) && s.current == ROOT && s.rootPc == Joining
    ensures var r := RunLoop(s, env);
      r.rootPc == Idle && r.ret == Some(Ok(Nil)) ==> r.tasks == map[]
    decreases |env|
  {
    hide OneExecutes, TasksAccounted, RunFibers;
    if env != [] && IsLoopEvent(env[0]) && Enabled(s, env[0]) {
      var r := Round(s, env[0]);
      if r.rootPc == Joining {
        OkMeansEmpty(r, env[1..]);
      } else {
        RoundExitsWithError(s, env[0]);
      }
    } else if s.tasks == map[] {
      NextControlled(s, SetEmpty);
      SameAtRoot(Next(s, SetEmpty));
    } else if env != [] {
      OkMeansEmpty(s, env[1..]);
    }
  }

  lemma SameAtRoot(s: State)
    requires Controlled(s) && s.current == ROOT
    ensures RunFibers(s) == s
  {
  }

  /** Inside `run`, control comes back to root either to go on waiting or because of an error. */
  ghost predicate InsideRun(s: State) {
    s.current != ROOT ==> s.rootPc == Delivering || s.rootPc.Polling?
  }

  ghost predicate ExitIsError(s: State) {
    s.rootPc == Idle ==> s.ret.Some? && s.ret.value.Err?
  }

  /** The runtime is as it was, and so is the purpose of the call in progress. */
  ghost predicate StillOpen(s: State, r: State) {
    r.runtimeOpen == s.runtimeOpen && (r.rootPc != Idle ==> r.closing == s.closing)
  }

  lemma RoundExitsWithError(s: State, a: Action)
    requires Controlled(s) && s.rootPc == Joining && IsLoopEvent(a) && Enabled(s, a)
    ensures ExitIsError(Round(s, a)) && StillOpen(s, Round(s, a))
  {
    NextControlled(s, a);
    NextExitsWithError(s, a);
    hide Next, Enabled, Controlled, InsideRun, ExitIsError;
    FibersExitWithError(Next(s, a));
  }

  lemma ToRootExits(s: State, res: Outcome)
    requires WellFormed(s) && (s.rootPc == Delivering || s.rootPc.Polling?)
    ensures var r := ControlToRoot(s, res); InsideRun(r) && ExitIsError(r) && StillOpen(s, r)
  {
    hide WellFormed;
    var r := ControlToRoot(s, res);
    match s.rootPc
    case Delivering => assert InsideRun(r) && ExitIsError(r) && StillOpen(s, r);
    case Polling(_) => assert InsideRun(r) && ExitIsError(r) && StillOpen(s, r);
  }

  lemma ArriveExits(s: State, f: nat, res: Outcome)
    requires WellFormed(s) && 0 < f < |s.fibers| && (s.rootPc == Delivering || s.rootPc.Polling?)
    ensures var r := Arrive(s, f, res); InsideRun(r) && ExitIsError(r) && StillOpen(s, r)
  {
    hide WellFormed, ControlToRoot, Logged, WithLeaf;
    var r := Arrive(s, f, res);
    match s.fibers[f].pc
    case Parked =>
      ToRootExits(WithPc(s, f, Terminated), res);
      assert InsideRun(r) && ExitIsError(r) && StillOpen(s, r);
    case Awaiting(_) => assert InsideRun(r) && ExitIsError(r) && StillOpen(s, r);
    case Nesting(_) => assert InsideRun(r) && ExitIsError(r) && StillOpen(s, r);
    case Executing => assert InsideRun(r) && ExitIsError(r) && StillOpen(s, r);
    case Terminated => assert InsideRun(r) && ExitIsError(r) && StillOpen(s, r);
  }

  lemma JoinExits(s: State, t: nat)
    requires Controlled(s) && s.rootPc == Joining && Enabled(s, TaskJoined(t))
    ensures var r := Join(s, t); InsideRun(r) && ExitIsError(r) && StillOpen(s, r)
  {
    assert WellFormed(s) && s.current == ROOT;
    hide Arrive, Controlled, ParentsInRange, TasksInRange, SendersInRange;
    var task := s.tasks[t];
    if task.phase.Finished? && IsAlive(s, task.owner) {
      ArriveExits(s.(borrowed := false, tasks := s.tasks - {t}, joined := s.joined[t := Delivered(task.phase.res)],
                     rootPc := Delivering), task.owner, task.phase.res);
    }
  }

  lemma TimerExits(s: State, t: nat)
    requires Controlled(s) && s.rootPc == Joining && Enabled(s, TimerFires(t))
    ensures var r := FireTimer(s, t); InsideRun(r) && ExitIsError(r) && StillOpen(s, r)
  {
    assert WellFormed(s) && s.current == ROOT;
    hide Arrive, Controlled, ParentsInRange, TasksInRange, SendersInRange;
    if CheckSuspended(s, s.tasks[t].owner).None? {
      ArriveExits(s.(rootPc := Polling(t)), s.tasks[t].owner, Err(TimedOut));
    }
  }

  lemma NextExitsWithError(s: State, a: Action)
    requires Controlled(s) && s.rootPc == Joining && IsLoopEvent(a) && Enabled(s, a)
    ensures var r := Next(s, a); InsideRun(r) && ExitIsError(r) && StillOpen(s, r)
  {
    assert WellFormed(s) && s.current == ROOT;
    hide Join, FireTimer, Controlled, ParentsInRange, TasksInRange, SendersInRange, Advance, FiberImpl, UnblockFiber;
    match a
    case TaskJoined(t) => JoinExits(s, t);
    case TimerFires(t) => TimerExits(s, t);
    case Interrupted(e) => assert Next(s, a) == Interrupt(s, e);
    case TaskFinishes(t, res) => FinishFrame(s, t, res);
    case TaskPanics(_) =>
    case TaskCancelled(_) =>
  }

  lemma ContinueExits(s: State, cont: seq<Item>, raised: Option<Error>, events: seq<Event>)
    requires WellFormed(s) && s.current != ROOT && (s.rootPc == Delivering || s.rootPc.Polling?)
    ensures var r := Continue(s, cont, raised, events); InsideRun(r) && ExitIsError(r) && StillOpen(s, r)
  {
  }

  lemma StepExitsWithError(s: State)
    requires Controlled(s) && s.current != ROOT && InsideRun(s)
    ensures var r := Advance(s); InsideRun(r) && ExitIsError(r) && StillOpen(s, r)
  {
    assert WellFormed(s);
    assert s.rootPc == Delivering || s.rootPc.Polling?;
    var r, k := Advance(s), s.fibers[s.current].cont;
    hide Continue, EndBody, FiberImpl, SpawnAndTransfer, BlockCurrent, UnblockFiber, Unwind, Controlled, ParentsInRange,
         TasksInRange, SendersInRange, ExitIsError, InsideRun, Lift;
    if s.raised.Some? {
      if Unwind(k).Some? { ContinueExits(s, Unwind(k).value, None, []); } else { EndBodyExits(s, Err(s.raised.value)); }
    } else if k == [] {
      EndBodyExits(s, Ok(Nil));
    } else {
      match k[0]
      case Do(Await) => HookExits(s, External);
      case Do(Block(timed)) => BlockExits(s, timed);
      case Do(Schedule(body)) => NestExits(s, body);
      case Do(Unblock(target)) =>
        UnblockFrame(s, target);
        var (s1, res) := UnblockFiber(s, target);
        ContinueExits(s1, Tail(s1.fibers[s1.current].cont), ErrorOf(res), [In(res)]);
      case Do(TimeoutAfter(body)) =>
        var (s1, failed) := Spawn(s, Timer);
        if failed.Some? { ContinueExits(s, k[1..], failed, []); }
        else { ContinueExits(s1.(timers := s.timers + 1), Lift(body) + k[1..], None, []); }
      case Do(Rescue(body, handler)) => ContinueExits(s, Lift(body) + [Catch(handler)] + k[1..], None, []);
      case Do(Emit(n)) => ContinueExits(s, k[1..], None, [Out(n)]);
      case Do(Raise(e)) => ContinueExits(s, k[1..], Some(e), []);
      case Catch(_) => ContinueExits(s, k[1..], None, []);
    }
  }

  lemma NestExits(s: State, body: seq<Op>)
    requires WellFormed(s) && s.current != ROOT && (s.rootPc == Delivering || s.rootPc.Polling?)
    ensures var r := FiberImpl(s, body); InsideRun(r) && ExitIsError(r) && StillOpen(s, r)
  {
  }

  lemma HookExits(s: State, kind: Kind)
    requires WellFormed(s) && s.current != ROOT && (kind.Blocking? ==> kind.chan < |s.chans|)
    requires s.rootPc == Delivering || s.rootPc.Polling?
    ensures var r := SpawnAndTransfer(s, kind); InsideRun(r) && ExitIsError(r) && StillOpen(s, r)
  {
    hide ControlToRoot, ParentsInRange, TasksInRange, SendersInRange, Logged;
    var s1 := Spawn(s, kind).0;
    ToRootExits(WithPc(s1, s1.current, Awaiting(s.spawned)), Ok(Nil));
  }

  lemma BlockExits(s: State, timed: bool)
    requires WellFormed(s) && s.current != ROOT && (s.rootPc == Delivering || s.rootPc.Polling?)
    ensures var r := BlockCurrent(s, timed); InsideRun(r) && ExitIsError(r) && StillOpen(s, r)
  {
    hide SpawnAndTransfer, InsideRun, ExitIsError, DropSender;
    var ch := |s.chans|;
    var lost := s.borrowed || !s.runtimeOpen;
    var chans := DropSender(s, s.current) + [Chan(s.current, if lost then Closed else Open)];
    HookExits(s.(blockers := s.blockers[s.current := ch], chans := chans), Blocking(ch, timed));
  }

  lemma EndBodyExits(s: State, res: Outcome)
    requires WellFormed(s) && s.current != ROOT && (s.rootPc == Delivering || s.rootPc.Polling?)
    ensures var r := Machine.EndBody(s, res); InsideRun(r) && ExitIsError(r) && StillOpen(s, r)
  {
    hide ControlToRoot, Arrive, InsideRun, ExitIsError, WithVerdict, ParentsInRange, TasksInRange, SendersInRange;
    var f, r := s.current, Machine.EndBody(s, res);
    match s.fibers[f].parent
    case None =>
      var s1 := WithPc(s, f, Terminated).(trees := WithVerdict(s.trees, s.fibers[f].tree, res));
      ToRootExits(s1, res);
      assert r == ControlToRoot(s1, res);
    case Some(p) =>
      assert 0 < p < f by { ParentInRange(s, f); }
      match CheckSuspended(s, p)
      case Some(e) =>
        ToRootExits(WithPc(s, f, Terminated), Err(e));
        assert r == ControlToRoot(WithPc(s, f, Terminated), Err(e));
      case None =>
        ArriveExits(WithPc(s, f, Parked), p, res);
        assert r == Arrive(WithPc(s, f, Parked), p, res);
  }

  lemma ParentInRange(s: State, f: nat)
    requires ParentsInRange(s.fibers) && f < |s.fibers| && s.fibers[f].parent.Some?
    ensures 0 < s.fibers[f].parent.value < f
  {
  }

  lemma {:induction false} FibersExitWithError(s: State)
    requires Controlled(s) && InsideRun(s) && ExitIsError(s)
    ensures ExitIsError(RunFibers(s)) && StillOpen(s, RunFibers(s))
    decreases Work(s)
  {
    if s.current != ROOT {
      StepControlled(s);
      StepWork(s);
      StepExitsWithError(s);
      hide Advance, Controlled, InsideRun, ExitIsError, Work;
      FibersExitWithError(Advance(s));
    }
  }

  /** A runtime that was open is given up exactly when the call is a close and returns Ok. */
  lemma {:induction false} LoopClosesExactly(s: State, env: seq<Action>)
    requires Controlled(s) && s.current == ROOT && s.rootPc == Joining
    ensures var r := RunLoop(s, env);
      r.runtimeOpen == (s.runtimeOpen && !(s.closing && r.rootPc == Idle && r.ret == Some(Ok(Nil))))
    ensures var r := RunLoop(s, env); r.rootPc == Idle || r.rootPc == Joining
    decreases |env|
  {
    hide OneExecutes, TasksAccounted, RunFibers;
    if env != [] && IsLoopEvent(env[0]) && Enabled(s, env[0]) {
      RoundExitsWithError(s, env[0]);
      var r := Round(s, env[0]);
      hide Round, Next, Enabled;
      if r.rootPc == Joining {
        LoopClosesExactly(r, env[1..]);
      }
    } else if s.tasks == map[] {
      NextControlled(s, SetEmpty);
      SameAtRoot(Next(s, SetEmpty));
    } else if env != [] {
      LoopClosesExactly(s, env[1..]);
    }
  }

  /** `close` and `run`, exactly: the runtime is gone afterwards if and only if it was gone before or a
      close has returned Ok. */
  lemma ClosesExactly(s: State, closing: bool, env: seq<Action>)
    requires Controlled(s) && Enabled(s, RootRun(closing))
    ensures var r := RunCall(s, closing, env);
      !r.runtimeOpen <==> !s.runtimeOpen || (closing && r.rootPc == Idle && r.ret == Some(Ok(Nil)))
  {
    NextControlled(s, RootRun(closing));
    if s.runtimeOpen {
      LoopClosesExactly(Next(s, RootRun(closing)), env);
    }
  }

  /** What a call leaves when it has returned: the task set free, and empty after an Ok. */
  lemma CallLeaves(s: State, closing: bool, env: seq<Action>)
    requires Controlled(s) && Enabled(s, RootRun(closing))
    ensures var r := RunCall(s, closing, env);
      r.rootPc == Idle ==> !r.borrowed && (r.ret == Some(Ok(Nil)) ==> r.tasks == map[])
  {
    NextControlled(s, RootRun(closing));
    if s.runtimeOpen {
      OkMeansEmpty(Next(s, RootRun(closing)), env);
    }
  }

  /** On a runtime that is gone, `run` and `close` fail at once, and that is all they do. */
  lemma ClosedRuntimeRefuses(s: State, closing: bool, env: seq<Action>)
    requires Controlled(s) && Enabled(s, RootRun(closing)) && !s.runtimeOpen
    ensures RunCall(s, closing, env) == s.(ret := Some(Err(RuntimeClosed)), closing := false)
  {
    NextControlled(s, RootRun(closing));
  }

  /** With nothing to wait for, and no interrupt, `run` and `close` return Ok at once. */
  lemma NothingToRun(s: State, closing: bool, env: seq<Action>)
    requires Controlled(s) && Enabled(s, RootRun(closing)) && s.runtimeOpen && s.tasks == map[]
    requires env != [] ==> !env[0].Interrupted?
    ensures RunCall(s, closing, env) == s.(ret := Some(Ok(Nil)), closing := false, runtimeOpen := !closing)
  {
    var s1 := Next(s, RootRun(closing));
    NextControlled(s, RootRun(closing));
    assert env != [] ==> !(IsLoopEvent(env[0]) && Enabled(s1, env[0]));
    NextControlled(s1, SetEmpty);
    SameAtRoot(Next(s1, SetEmpty));
  }

  /** When a call of `run` returns Ok with no timer ever started and no join ever failed, the set is
      empty and every block scheduled so far, at any nesting depth, is complete. */
  lemma RunOkMeansAllComplete(s: State, closing: bool, env: seq<Action>)
    requires Reachable(s) && Controlled(s) && Enabled(s, RootRun(closing)) && s.runtimeOpen
    requires var r := RunCall(s, closing, env);
      r.timers == 0 && r.rootPc == Idle && r.ret == Some(Ok(Nil)) && forall t | t in r.joined :: r.joined[t] != JoinFailed
    ensures var r := RunCall(s, closing, env);
      && r.tasks == map[] && !r.borrowed
      && (forall f | 0 < f < |r.fibers| :: r.fibers[f].pc.Parked? || r.fibers[f].pc.Terminated?)
  {
    var r := RunCall(s, closing, env);
    NextControlled(s, RootRun(closing));
    OkMeansEmpty(Next(s, RootRun(closing)), env);
    RunCallIsReachable(s, closing, env);
    ReachableChained(r);
    hide RunCall, Links, Next;
    forall f | 0 < f < |r.fibers| ensures r.fibers[f].pc.Parked? || r.fibers[f].pc.Terminated? {
      if Unfinished(r.fibers[f].pc) {
        ChainsEnd(r, f);
      }
    }
  }
}
