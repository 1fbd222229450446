/** The scheduler as a state machine.

    `State` is the scheduler's own fields (`futures_to_run`, `blockers`, `runtime`), the part of the
    Ruby VM it drives (fibers, which one is current, an exception in flight, where the root fiber
    stands) and a history. `Next` is one atomic action: of the root fiber's program, of the current
    fiber, of the environment while `run` awaits `join_next`, or of `run` itself. */
module Machine {
  import opened Scripts

  /** Where a fiber is suspended. The task and child are notes for the proofs: no action reads them. */
  datatype Pc =
    | Executing
    | Awaiting(task: nat)   // in spawn_and_transfer's transfer to root
    | Nesting(child: nat)   // in fiber_impl's transfer to the new fiber
    | Parked                // nested body complete, in the final transfer to the parent
    | Terminated

  /** `parent` is the captured transfer_back_to; `tree` names the root-scheduled ancestor. */
  datatype Fiber = Fiber(pc: Pc, cont: seq<Item>, parent: Option<nat>, tree: nat)

  datatype Kind = External | Blocking(chan: nat, timed: bool) | Timer

  /** Pending and not yet polled to completion; finished, not yet joined; panicked or cancelled. */
  datatype Phase = Pending | Finished(res: Outcome) | Crashed

  datatype Task = Task(owner: nat, kind: Kind, phase: Phase, aborted: bool)

  /** A oneshot channel. `Closed`: the receiver is gone. `Orphaned`: the sender is gone. */
  datatype ChanState = Open | Signalled | Closed | Orphaned

  datatype Chan = Chan(fiber: nat, state: ChanState)

  /** Where the root fiber stands: in its own program, in fiber_impl's transfer, awaiting join_next,
      in resume_if_alive's transfer, or in a raise made by a timer that is being polled. */
  datatype RootPc = Idle | Scheduling | Joining | Delivering | Polling(task: nat)

  datatype Fate = Delivered(res: Outcome) | Dropped | JoinFailed

  /** History of one root-scheduled fiber and its descendants. `leaf` is the end of its wait chain. */
  datatype Tree = Tree(script: seq<Op>, leaf: nat, log: seq<Event>, verdict: Option<Outcome>)

  datatype State = State(
    fibers: seq<Fiber>,
    current: nat,
    raised: Option<Error>,
    rootPc: RootPc,
    closing: bool,
    runtimeOpen: bool,
    tasks: map<nat, Task>,
    spawned: nat,
    borrowed: bool,
    blockers: map<nat, nat>,
    chans: seq<Chan>,
    ret: Option<Outcome>,       // what the last call made by the root program returned
    joined: map<nat, Fate>,
    trees: map<nat, Tree>,
    timers: nat)                // how often timeout_after has started a timer

  const ROOT: nat := 0

  function Init(): State {
    State([Fiber(Executing, [], None, ROOT)], ROOT, None, Idle, false, true, map[], 0, false,
          map[], [], None, map[], map[], 0)
  }

  ghost predicate ParentsInRange(fibers: seq<Fiber>) {
    forall f | 0 <= f < |fibers| && fibers[f].parent.Some? :: 0 < fibers[f].parent.value < f
  }

  ghost predicate TasksInRange(tasks: map<nat, Task>, fibers: nat, chans: nat) {
    forall t | t in tasks :: 0 < tasks[t].owner < fibers && (tasks[t].kind.Blocking? ==> tasks[t].kind.chan < chans)
  }

  ghost predicate SendersInRange(blockers: map<nat, nat>, chans: nat) {
    forall f | f in blockers :: blockers[f] < chans
  }

  /** Indices and references are in range. */
  ghost predicate WellFormed(s: State) {
    && s.current < |s.fibers|
    && ParentsInRange(s.fibers)
    && TasksInRange(s.tasks, |s.fibers|, |s.chans|)
    && SendersInRange(s.blockers, |s.chans|)
  }

  // ---- fibers ---------------------------------------------------------------------------

  predicate IsAlive(s: State, f: nat)
    requires f < |s.fibers|
  {
    f == ROOT || !s.fibers[f].pc.Terminated?
  }

  function CheckSuspended(s: State, f: nat): Option<Error>
    requires f < |s.fibers|
  {
    if !IsAlive(s, f) then Some(FiberNotAlive)
    else if f == s.current then Some(FiberActive)
    else None
  }

  function Logged(trees: map<nat, Tree>, t: nat, events: seq<Event>): map<nat, Tree> {
    if t in trees then trees[t := trees[t].(log := trees[t].log + events)] else trees
  }

  function WithLeaf(trees: map<nat, Tree>, t: nat, leaf: nat): map<nat, Tree> {
    if t in trees then trees[t := trees[t].(leaf := leaf)] else trees
  }

  function WithVerdict(trees: map<nat, Tree>, t: nat, res: Outcome): map<nat, Tree> {
    if t in trees then trees[t := trees[t].(verdict := Some(res))] else trees
  }

  function Tail(k: seq<Item>): seq<Item> {
    if k == [] then [] else k[1..]
  }

  function WithPc(s: State, f: nat, pc: Pc): (r: State)
    requires WellFormed(s) && f < |s.fibers|
    ensures WellFormed(r) && r.timers == s.timers
  {
    s.(fibers := s.fibers[f := s.fibers[f].(pc := pc)])
  }

  /** The current fiber goes on with `cont`, after `events`. */
  function Continue(s: State, cont: seq<Item>, raised: Option<Error>, events: seq<Event>): (r: State)
    requires WellFormed(s)
    ensures WellFormed(r) && r.timers == s.timers
  {
    var x := s.fibers[s.current];
    s.(fibers := s.fibers[s.current := x.(cont := cont)], raised := raised, trees := Logged(s.trees, x.tree, events))
  }

  /** `run` returns `res`; `close` gives up the runtime only after an Ok. */
  function ExitRun(s: State, res: Outcome): (r: State)
    requires WellFormed(s)
    ensures WellFormed(r) && r.timers == s.timers
  {
    s.(rootPc := Idle, ret := Some(res), closing := false, runtimeOpen := s.runtimeOpen && !(s.closing && res.Ok?))
  }

  /** The top of `run`'s loop: borrow the task set and await join_next. */
  function BeginJoin(s: State): (r: State)
    requires WellFormed(s)
    ensures WellFormed(r) && r.timers == s.timers
  {
    if s.borrowed then ExitRun(s, Err(AlreadyBorrowed)) else s.(borrowed := true, rootPc := Joining)
  }

  /** Control comes back to the root fiber, whose pending transfer or raise yields `res`. */
  function ControlToRoot(s: State, res: Outcome): (r: State)
    requires WellFormed(s)
    ensures WellFormed(r) && r.timers == s.timers
  {
    match s.rootPc
    case Scheduling => s.(current := ROOT, raised := None, rootPc := Idle, ret := Some(res))
    case Delivering =>
      var s1 := s.(current := ROOT, raised := None);
      if res.Err? then ExitRun(s1, res) else BeginJoin(s1)
    case Polling(t) =>
      s.(current := ROOT, raised := None, rootPc := Joining,
         tasks := if t in s.tasks then s.tasks[t := s.tasks[t].(phase := Finished(res))] else s.tasks)
    case Idle => s.(current := ROOT, raised := None)
    case Joining => s.(current := ROOT, raised := None)
  }

  /** Control switches to the suspended fiber `f`, whose pending transfer yields `res`. */
  function Arrive(s: State, f: nat, res: Outcome): (r: State)
    requires WellFormed(s) && 0 < f < |s.fibers|
    ensures WellFormed(r) && r.timers == s.timers
  {
    var x := s.fibers[f];
    match x.pc
    case Awaiting(_) =>
      assert ParentsInRange(s.fibers[f := x.(pc := Executing, cont := Tail(x.cont))]);
      s.(current := f, raised := ErrorOf(res),
         fibers := s.fibers[f := x.(pc := Executing, cont := Tail(x.cont))],
         trees := WithLeaf(Logged(s.trees, x.tree, [In(res)]), x.tree, f))
    case Nesting(_) =>
      assert ParentsInRange(s.fibers[f := x.(pc := Executing)]);
      s.(current := f, raised := ErrorOf(res),
         fibers := s.fibers[f := x.(pc := Executing)],
         trees := WithLeaf(s.trees, x.tree, f))
    case Parked => ControlToRoot(WithPc(s, f, Terminated), res)
    case Executing => s    // not suspended: check_suspended has ruled these out
    case Terminated => s
  }

  /** The current fiber's block has returned or raised: a root-scheduled fiber terminates, a nested
      one transfers back to its parent. */
  function EndBody(s: State, res: Outcome): (r: State)
    requires WellFormed(s) && s.current != ROOT
    ensures WellFormed(r) && r.timers == s.timers
  {
    var f := s.current;
    match s.fibers[f].parent
    case None =>
      var s1 := WithPc(s, f, Terminated);
      ControlToRoot(s1.(trees := WithVerdict(s.trees, s.fibers[f].tree, res)), res)
    case Some(p) =>
      match CheckSuspended(s, p)
      case Some(e) => ControlToRoot(WithPc(s, f, Terminated), Err(e))
      case None => Arrive(WithPc(s, f, Parked), p, res)
  }

  /** fiber_impl: a new fiber starts; it is told to transfer back unless root scheduled it. */
  function FiberImpl(s: State, body: seq<Op>): (r: State)
    requires WellFormed(s)
    ensures WellFormed(r) && r.timers == s.timers
  {
    var c := |s.fibers|;
    if s.current == ROOT then
      s.(fibers := s.fibers + [Fiber(Executing, Lift(body), None, c)], current := c, raised := None,
         rootPc := Scheduling, trees := s.trees[c := Tree(body, c, [], None)])
    else
      var x := s.fibers[s.current];
      s.(fibers := s.fibers[s.current := x.(pc := Nesting(c), cont := Tail(x.cont))]
                   + [Fiber(Executing, Lift(body), Some(s.current), x.tree)],
         current := c, raised := None, trees := WithLeaf(s.trees, x.tree, c))
  }

  // ---- tasks ----------------------------------------------------------------------------

  /** `spawn`: the new task belongs to the current fiber; on a closed runtime it is cancelled at once. */
  function Spawn(s: State, kind: Kind): (r: (State, Option<Error>))
    requires WellFormed(s) && s.current != ROOT && (kind.Blocking? ==> kind.chan < |s.chans|)
    ensures WellFormed(r.0) && r.0.timers == s.timers && (r.1.Some? ==> r.0 == s)
  {
    if s.borrowed then (s, Some(AlreadyBorrowed))
    else
      var task := Task(s.current, kind, if s.runtimeOpen then Pending else Crashed, false);
      (s.(tasks := s.tasks[s.spawned := task], spawned := s.spawned + 1), None)
  }

  /** The hook the current fiber called returns `res` without having suspended it. */
  function HookReturns(s: State, res: Outcome): (r: State)
    requires WellFormed(s)
    ensures WellFormed(r) && r.timers == s.timers
  {
    Continue(s, Tail(s.fibers[s.current].cont), ErrorOf(res), [In(res)])
  }

  function SpawnAndTransfer(s: State, kind: Kind): (r: State)
    requires WellFormed(s) && s.current != ROOT && (kind.Blocking? ==> kind.chan < |s.chans|)
    ensures WellFormed(r) && r.timers == s.timers
  {
    var (s1, failed) := Spawn(s, kind);
    if failed.Some? then HookReturns(s, Err(failed.value))
    else
      match CheckSuspended(s1, ROOT)
      case Some(e) => HookReturns(s1, Err(e))
      case None => ControlToRoot(WithPc(s1, s1.current, Awaiting(s.spawned)), Ok(Nil))
  }

  // ---- block and unblock ----------------------------------------------------------------

  function SetChan(chans: seq<Chan>, ch: nat, state: ChanState): (r: seq<Chan>)
    requires ch < |chans|
    ensures |r| == |chans|
  {
    chans[ch := chans[ch].(state := state)]
  }

  /** The receiver of a task that will never be polled again is dropped. */
  function DropReceiver(chans: seq<Chan>, kind: Kind): (r: seq<Chan>)
    requires kind.Blocking? ==> kind.chan < |chans|
    ensures |r| == |chans|
  {
    if kind.Blocking? then SetChan(chans, kind.chan, Closed) else chans
  }

  /** A sender removed from, or overwritten in, the map is dropped. */
  function DropSender(s: State, f: nat): (r: seq<Chan>)
    requires WellFormed(s)
    ensures |r| == |s.chans|
  {
    if f in s.blockers && s.chans[s.blockers[f]].state == Open then SetChan(s.chans, s.blockers[f], Orphaned)
    else s.chans
  }

  /** `block` up to its suspension: register a sender, then spawn the task that holds the receiver. */
  function BlockCurrent(s: State, timed: bool): (r: State)
    requires WellFormed(s) && s.current != ROOT
    ensures WellFormed(r) && r.timers == s.timers
  {
    var ch := |s.chans|;
    var lost := s.borrowed || !s.runtimeOpen;
    var chans := DropSender(s, s.current) + [Chan(s.current, if lost then Closed else Open)];
    SpawnAndTransfer(s.(blockers := s.blockers[s.current := ch], chans := chans), Blocking(ch, timed))
  }

  function UnblockFiber(s: State, target: nat): (r: (State, Outcome))
    requires WellFormed(s)
    ensures WellFormed(r.0) && r.0.timers == s.timers
  {
    if target >= |s.fibers| then (s, Err(NoConversion))
    else
      match CheckSuspended(s, target)
      case Some(e) => (s, Err(e))
      case None =>
        if target !in s.blockers then (s, Ok(Nil))
        else
          var ch := s.blockers[target];
          var s1 := s.(blockers := s.blockers - {target});
          if s.chans[ch].state == Open then (s1.(chans := SetChan(s.chans, ch, Signalled)), Ok(Nil))
          else (s1, Err(CouldNotUnblock))
  }

  // ---- the current fiber ----------------------------------------------------------------

  /** One step of the current fiber's own code. */
  function Advance(s: State): (r: State)
    requires WellFormed(s) && s.current != ROOT
    ensures WellFormed(r) && r.timers >= s.timers
  {
    var k := s.fibers[s.current].cont;
    if s.raised.Some? then
      match Unwind(k)
      case Some(h) => Continue(s, h, None, [])
      case None => EndBody(s, Err(s.raised.value))
    else if k == [] then EndBody(s, Ok(Nil))
    else
      match k[0]
      case Catch(_) => Continue(s, k[1..], None, [])
      case Do(Emit(n)) => Continue(s, k[1..], None, [Out(n)])
      case Do(Raise(e)) => Continue(s, k[1..], Some(e), [])
      case Do(Rescue(body, handler)) => Continue(s, Lift(body) + [Catch(handler)] + k[1..], None, [])
      case Do(Schedule(body)) => FiberImpl(s, body)
      case Do(Await) => SpawnAndTransfer(s, External)
      case Do(Block(timed)) => BlockCurrent(s, timed)
      case Do(Unblock(target)) =>
        var (s1, res) := UnblockFiber(s, target);
        HookReturns(s1, res)
      case Do(TimeoutAfter(body)) =>
        var (s1, failed) := Spawn(s, Timer);
        if failed.Some? then Continue(s, k[1..], failed, [])
        else Continue(s1.(timers := s.timers + 1), Lift(body) + k[1..], None, [])
  }

  // ---- the environment and `run` --------------------------------------------------------

  /** What a pending task's future may finish with. */
  predicate MayFinish(s: State, task: Task, res: Outcome)
    requires task.kind.Blocking? ==> task.kind.chan < |s.chans|
  {
    task.phase.Pending? && !task.aborted &&
    match task.kind
    case External => true
    case Timer => false
    case Blocking(ch, timed) =>
      match s.chans[ch].state
      case Signalled => res == Ok(True)
      case Orphaned => res == Err(SenderDropped)
      case Open => timed && res == Err(TimedOut)
      case Closed => false
  }

  /** A task is polled to completion. The clean-up of `block` runs on the root fiber. */
  function Finish(s: State, t: nat, res: Outcome): (r: State)
    requires WellFormed(s) && t in s.tasks
    ensures WellFormed(r) && r.timers == s.timers
  {
    var task := s.tasks[t];
    var s1 := s.(tasks := s.tasks[t := task.(phase := Finished(res))], chans := DropReceiver(s.chans, task.kind));
    if task.kind.Blocking? then s1.(blockers := s1.blockers - {s.current}, chans := DropSender(s1, s.current)) else s1
  }

  /** A task panics or is cancelled. */
  function Crash(s: State, t: nat): (r: State)
    requires WellFormed(s) && t in s.tasks
    ensures WellFormed(r) && r.timers == s.timers
  {
    s.(tasks := s.tasks[t := s.tasks[t].(phase := Crashed)], chans := DropReceiver(s.chans, s.tasks[t].kind))
  }

  /** A timer of timeout_after is polled after its deadline: it raises in its fiber. */
  function FireTimer(s: State, t: nat): (r: State)
    requires WellFormed(s) && t in s.tasks
    ensures WellFormed(r) && r.timers == s.timers
  {
    var f := s.tasks[t].owner;
    match CheckSuspended(s, f)
    case Some(e) => s.(tasks := s.tasks[t := s.tasks[t].(phase := Finished(Err(e)))])
    case None => Arrive(s.(rootPc := Polling(t)), f, Err(TimedOut))
  }

  /** join_next yields task `t`: the borrow ends, and a finished task's fiber is resumed if alive. */
  function Join(s: State, t: nat): (r: State)
    requires WellFormed(s) && t in s.tasks && !s.tasks[t].phase.Pending?
    ensures WellFormed(r) && r.timers == s.timers
  {
    var task := s.tasks[t];
    var s1 := s.(borrowed := false, tasks := s.tasks - {t});
    match task.phase
    case Crashed => BeginJoin(s1.(joined := s.joined[t := JoinFailed]))
    case Finished(res) =>
      if !IsAlive(s, task.owner) then BeginJoin(s1.(joined := s.joined[t := Dropped]))
      else
        match CheckSuspended(s1, task.owner)
        case Some(e) => ExitRun(s1.(joined := s.joined[t := Dropped]), Err(e))
        case None => Arrive(s1.(joined := s.joined[t := Delivered(res)], rootPc := Delivering), task.owner, res)
  }

  function Abort(task: Task): Task {
    task.(aborted := task.aborted || task.phase.Pending?)
  }

  /** check_interrupts wins the select: every pending task is aborted and `run` returns the error. */
  function Interrupt(s: State, e: Error): (r: State)
    requires WellFormed(s)
    ensures WellFormed(r) && r.timers == s.timers
  {
    ExitRun(s.(borrowed := false, tasks := map t | t in s.tasks :: Abort(s.tasks[t])), Err(e))
  }

  datatype Action =
    // the root fiber's program, between calls
    | RootSchedule(script: seq<Op>)
    | RootUnblock(target: nat)
    | RootRun(closing: bool)            // `run`, or `close` calling it
    // the current fiber
    | Step
    // the environment, while `run` awaits join_next
    | TaskFinishes(task: nat, res: Outcome)
    | TaskPanics(task: nat)
    | TaskCancelled(task: nat)
    | TimerFires(task: nat)
    | Interrupted(error: Error)
    // join_next returns
    | TaskJoined(task: nat)
    | SetEmpty

  predicate Enabled(s: State, a: Action)
    requires WellFormed(s)
  {
    match a
    case RootSchedule(_) => s.rootPc == Idle && s.current == ROOT
    case RootUnblock(_) => s.rootPc == Idle && s.current == ROOT
    case RootRun(_) => s.rootPc == Idle && s.current == ROOT
    case Step => s.current != ROOT
    case TaskFinishes(t, res) => s.rootPc == Joining && t in s.tasks && MayFinish(s, s.tasks[t], res)
    case TaskPanics(t) => s.rootPc == Joining && t in s.tasks && s.tasks[t].phase.Pending?
    case TaskCancelled(t) => s.rootPc == Joining && t in s.tasks && s.tasks[t].phase.Pending? && s.tasks[t].aborted
    case TimerFires(t) =>
      s.rootPc == Joining && t in s.tasks && s.tasks[t].phase.Pending? && s.tasks[t].kind.Timer? && !s.tasks[t].aborted
    case Interrupted(_) => s.rootPc == Joining
    case TaskJoined(t) => s.rootPc == Joining && t in s.tasks && !s.tasks[t].phase.Pending?
    case SetEmpty => s.rootPc == Joining && s.tasks == map[]
  }

  function Next(s: State, a: Action): (r: State)
    requires WellFormed(s) && Enabled(s, a)
    ensures WellFormed(r) && r.timers >= s.timers
  {
    match a
    case RootSchedule(script) => FiberImpl(s, script)
    case RootUnblock(target) => var (s1, res) := UnblockFiber(s, target); s1.(ret := Some(res))
    case RootRun(closing) =>
      if !s.runtimeOpen then ExitRun(s, Err(RuntimeClosed)) else BeginJoin(s.(closing := closing))
    case Step => Advance(s)
    case TaskFinishes(t, res) => Finish(s, t, res)
    case TaskPanics(t) => Crash(s, t)
    case TaskCancelled(t) => Crash(s, t)
    case TimerFires(t) => FireTimer(s, t)
    case Interrupted(e) => Interrupt(s, e)
    case TaskJoined(t) => Join(s, t)
    case SetEmpty => ExitRun(s.(borrowed := false), Ok(Nil))
  }

  /** `s'` is reached from `s` by these actions in this order. */
  ghost predicate Runs(s: State, actions: seq<Action>, s': State)
    requires WellFormed(s)
    decreases |actions|
  {
    if actions == [] then s == s'
    else Enabled(s, actions[0]) && Runs(Next(s, actions[0]), actions[1..], s')
  }

  ghost predicate Reachable(s: State) {
    WellFormed(s) && exists actions :: Runs(Init(), actions, s)
  }

  lemma {:induction false} RunsWellFormed(s: State, actions: seq<Action>, s': State)
    requires WellFormed(s) && Runs(s, actions, s')
    ensures WellFormed(s')
    decreases |actions|
  {
    hide Next, Enabled;
    if actions != [] {
      RunsWellFormed(Next(s, actions[0]), actions[1..], s');
    }
  }

  lemma {:induction false} TimersOnlyGrow(s: State, actions: seq<Action>, s': State)
    requires WellFormed(s) && Runs(s, actions, s')
    ensures s.timers <= s'.timers
    decreases |actions|
  {
    hide Next, Enabled;
    if actions != [] {
      TimersOnlyGrow(Next(s, actions[0]), actions[1..], s');
    }
  }

  lemma {:induction false} RunsConcat(s: State, a: seq<Action>, s1: State, b: seq<Action>, s2: State)
    requires WellFormed(s) && Runs(s, a, s1) && WellFormed(s1) && Runs(s1, b, s2)
    ensures Runs(s, a + b, s2)
    decreases |a|
  {
    hide Next, Enabled, WellFormed;
    if a == [] {
      assert a + b == b;
    } else {
      var next := Next(s, a[0]);
      assert (a + b)[0] == a[0] && (a + b)[1..] == a[1..] + b;
      RunsConcat(next, a[1..], s1, b, s2);
    }
  }
}
