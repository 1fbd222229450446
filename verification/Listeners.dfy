/** Both ends of every channel, whatever timers do: a pending block never loses its receiver, a sender
    is in the map or has been used or dropped, and a live sender has somebody waiting for it. */
module Listeners {
  import opened Scripts
  import opened Machine
  import opened Control
  import opened WaitChains

  predicate PendingBlock(task: Task) {
    task.phase.Pending? && task.kind.Blocking?
  }

  /** The pending blocks and the channels they listen to. */
  function Blocks(tasks: map<nat, Task>): map<nat, nat> {
    map t | t in tasks && PendingBlock(tasks[t]) :: tasks[t].kind.chan
  }

  /** A pending block's channel has its receiver. */
  ghost predicate Live(blocks: map<nat, nat>, chans: seq<Chan>) {
    forall t | t in blocks :: blocks[t] < |chans| && !chans[blocks[t]].state.Closed?
  }

  /** No two pending blocks share a channel. */
  ghost predicate Apart(blocks: map<nat, nat>) {
    forall t, u | t in blocks && u in blocks && blocks[t] == blocks[u] :: t == u
  }

  /** A channel is open only while its sender is in the map and a pending block listens. */
  ghost predicate Held(blocks: map<nat, nat>, blockers: map<nat, nat>, chans: seq<Chan>) {
    forall ch: nat | ch < |chans| && chans[ch].state.Open? ::
      chans[ch].fiber in blockers && blockers[chans[ch].fiber] == ch && ch in blocks.Values
  }

  /** A sender in the map is under the fiber that made it, which is not root, and has not been used. */
  ghost predicate Entries(blockers: map<nat, nat>, chans: seq<Chan>) {
    forall f | f in blockers ::
      && f != ROOT && blockers[f] < |chans| && chans[blockers[f]].fiber == f
      && (chans[blockers[f]].state.Open? || chans[blockers[f]].state.Closed?)
  }

  ghost predicate Listens(blocks: map<nat, nat>, blockers: map<nat, nat>, chans: seq<Chan>) {
    Live(blocks, chans) && Apart(blocks) && Held(blocks, blockers, chans) && Entries(blockers, chans)
  }

  /** What is polled while a fiber runs is a timer. */
  ghost predicate PollsTimer(s: State) {
    s.rootPc.Polling? ==> s.rootPc.task in s.tasks && s.tasks[s.rootPc.task].kind.Timer?
  }

  ghost predicate Listening(s: State) {
    Listens(Blocks(s.tasks), s.blockers, s.chans) && PollsTimer(s)
  }

  /** `r` has the senders, the channels and the pending blocks of `s`. */
  ghost predicate Quiet(s: State, r: State) {
    r.chans == s.chans && r.blockers == s.blockers && Blocks(r.tasks) == Blocks(s.tasks) && PollsTimer(r)
  }

  lemma QuietListens(s: State, r: State)
    requires Listening(s) && Quiet(s, r)
    ensures Listening(r)
  {
  }

  lemma ToRootQuiet(s: State, r: State, res: Outcome)
    requires WellFormed(r) && Quiet(s, r)
    ensures Quiet(s, ControlToRoot(r, res))
  {
    if r.rootPc.Polling? {
      PollEndsQuietly(s, r, res);
    } else {
      ToRootFrame(r, res);
      hide WellFormed, ControlToRoot;
    }
  }

  lemma PollEndsQuietly(s: State, r: State, res: Outcome)
    requires WellFormed(r) && Quiet(s, r) && r.rootPc.Polling?
    ensures Quiet(s, ControlToRoot(r, res))
  {
    hide WellFormed;
    var q := ControlToRoot(r, res);
    match r.rootPc
    case Polling(_) => assert Quiet(s, q);
  }

  lemma ArriveQuiet(s: State, r: State, f: nat, res: Outcome)
    requires WellFormed(r) && Quiet(s, r) && 0 < f < |r.fibers|
    ensures Quiet(s, Arrive(r, f, res))
  {
    hide ControlToRoot, WellFormed, Logged, WithLeaf, Blocks;
    ToRootQuiet(s, WithPc(r, f, Terminated), res);
    var q := Arrive(r, f, res);
    match r.fibers[f].pc
    case Awaiting(_) => assert Quiet(s, q);
    case Nesting(_) => assert Quiet(s, q);
    case Parked => assert Quiet(s, q);
    case Executing => assert Quiet(s, q);
    case Terminated => assert Quiet(s, q);
  }

  lemma EndBodyQuiet(s: State, res: Outcome)
    requires WellFormed(s) && PollsTimer(s) && s.current != ROOT
    ensures Quiet(s, EndBody(s, res))
  {
    var f, q := s.current, EndBody(s, res);
    var s1 := WithPc(s, f, Terminated).(trees := WithVerdict(s.trees, s.fibers[f].tree, res));
    assert Quiet(s, s1) && Quiet(s, WithPc(s, f, Terminated)) && Quiet(s, WithPc(s, f, Parked));
    assert s.fibers[f].parent.Some? ==> 0 < s.fibers[f].parent.value < f;
    hide ControlToRoot, Arrive, ParentsInRange, TasksInRange, SendersInRange, WithVerdict, Quiet;
    match s.fibers[f].parent
    case None => ToRootQuiet(s, s1, res); assert Quiet(s, q);
    case Some(p) =>
      match CheckSuspended(s, p)
      case Some(e) => ToRootQuiet(s, WithPc(s, f, Terminated), Err(e)); assert Quiet(s, q);
      case None => ArriveQuiet(s, WithPc(s, f, Parked), p, res); assert Quiet(s, q);
  }

  lemma ContinueListens(s: State, cont: seq<Item>, raised: Option<Error>, events: seq<Event>)
    requires WellFormed(s) && Listening(s)
    ensures Listening(Continue(s, cont, raised, events))
  {
  }

  lemma FiberImplListens(s: State, body: seq<Op>)
    requires WellFormed(s) && Listening(s)
    ensures Listening(FiberImpl(s, body))
  {
    hide Listens, Blocks, WithLeaf, ParentsInRange, TasksInRange, SendersInRange;
  }

  lemma EndBodyListens(s: State, res: Outcome)
    requires WellFormed(s) && Listening(s) && s.current != ROOT
    ensures Listening(EndBody(s, res))
  {
    EndBodyQuiet(s, res);
    hide EndBody, WellFormed;
    QuietListens(s, EndBody(s, res));
  }

  lemma OtherSpawnListens(s: State, kind: Kind)
    requires Controlled(s) && Listening(s) && s.current != ROOT && !kind.Blocking?
    ensures Listening(Spawn(s, kind).0)
  {
    hide Live, Apart, Held, Entries;
    if !s.borrowed {
      assert Blocks(Spawn(s, kind).0.tasks) == Blocks(s.tasks);
    }
  }

  /** A spawned hook, whatever it did to the map before, suspends quietly. */
  lemma SuspendListens(s: State, kind: Kind)
    requires Controlled(s) && s.current != ROOT && (kind.Blocking? ==> kind.chan < |s.chans|)
    requires Listening(Spawn(s, kind).0)
    ensures Listening(SpawnAndTransfer(s, kind))
  {
    var (s1, failed) := Spawn(s, kind);
    if failed.Some? {
      ContinueListens(s, Tail(s.fibers[s.current].cont), failed, [In(Err(failed.value))]);
    } else {
      var s2 := WithPc(s1, s1.current, Awaiting(s.spawned));
      assert Quiet(s1, s2);
      hide ControlToRoot, Listening, Controlled;
      ToRootQuiet(s1, s2, Ok(Nil));
      QuietListens(s1, ControlToRoot(s2, Ok(Nil)));
    }
  }

  /** A fiber's new sender replaces its old one, which is dropped; a task that will listen comes with it. */
  lemma NewSender(s: State, f: nat, blocks: map<nat, nat>, t: nat)
    requires WellFormed(s) && Listens(blocks, s.blockers, s.chans) && f != ROOT && t !in blocks
    ensures var chans := DropSender(s, f);
      Listens(blocks[t := |s.chans|], s.blockers[f := |s.chans|], chans + [Chan(f, Open)])
  {
    var chans, ch := DropSender(s, f), |s.chans|;
    var chans', blockers', blocks' := chans + [Chan(f, Open)], s.blockers[f := ch], blocks[t := ch];
    forall c: nat | c < |chans'| && chans'[c].state.Open?
      ensures chans'[c].fiber in blockers' && blockers'[chans'[c].fiber] == c && c in blocks'.Values
    {
      if c < ch {
        assert c in blocks.Values;
        var u :| u in blocks && blocks[u] == c;
        assert blocks'[u] == c;
      } else {
        assert blocks'[t] == c;
      }
    }
  }

  /** The same when no task will listen: the receiver is gone at once. */
  lemma LostSender(s: State, f: nat, blocks: map<nat, nat>)
    requires WellFormed(s) && Listens(blocks, s.blockers, s.chans) && f != ROOT
    ensures Listens(blocks, s.blockers[f := |s.chans|], DropSender(s, f) + [Chan(f, Closed)])
  {
  }

  /** The spawn inside `block`, after the sender has been registered. */
  lemma BlockSpawnListens(s: State, timed: bool)
    requires Controlled(s) && Listening(s) && s.current != ROOT
    ensures var ch, f, lost := |s.chans|, s.current, s.borrowed || !s.runtimeOpen;
      var s1 := s.(blockers := s.blockers[f := ch], chans := DropSender(s, f) + [Chan(f, if lost then Closed else Open)]);
      Listening(Spawn(s1, Blocking(ch, timed)).0)
  {
    var ch, f := |s.chans|, s.current;
    var task := Task(f, Blocking(ch, timed), if s.runtimeOpen then Pending else Crashed, false);
    assert s.spawned !in s.tasks;
    if s.borrowed || !s.runtimeOpen {
      LostSender(s, f, Blocks(s.tasks));
      assert !s.runtimeOpen ==> Blocks(s.tasks[s.spawned := task]) == Blocks(s.tasks);
    } else {
      NewSender(s, f, Blocks(s.tasks), s.spawned);
      assert Blocks(s.tasks[s.spawned := task]) == Blocks(s.tasks)[s.spawned := ch];
    }
    hide Listens, DropSender, Blocks, OneExecutes, TasksAccounted, ParentsInRange, TasksInRange, SendersInRange;
  }

  lemma BlockListens(s: State, timed: bool)
    requires Controlled(s) && Listening(s) && s.current != ROOT
    ensures Listening(BlockCurrent(s, timed))
  {
    var ch, f := |s.chans|, s.current;
    var lost := s.borrowed || !s.runtimeOpen;
    BlockSpawnListens(s, timed);
    hide SpawnAndTransfer, Spawn, DropSender, Listening;
    SuspendListens(s.(blockers := s.blockers[f := ch], chans := DropSender(s, f) + [Chan(f, if lost then Closed else Open)]),
                   Blocking(ch, timed));
  }

  /** A sender leaves the map, by being used if it is live. */
  lemma SenderLeaves(blocks: map<nat, nat>, blockers: map<nat, nat>, chans: seq<Chan>, f: nat)
    requires Listens(blocks, blockers, chans) && f in blockers
    ensures blockers[f] < |chans|
    ensures chans[blockers[f]].state == Open ==> Listens(blocks, blockers - {f}, SetChan(chans, blockers[f], Signalled))
    ensures chans[blockers[f]].state != Open ==> Listens(blocks, blockers - {f}, chans)
  {
  }

  lemma UnblockListens(s: State, target: nat)
    requires WellFormed(s) && Listening(s)
    ensures Listening(UnblockFiber(s, target).0)
  {
    UnblockFrame(s, target);
    if target in s.blockers {
      SenderLeaves(Blocks(s.tasks), s.blockers, s.chans, target);
    }
    hide WellFormed, Blocks, Listens, SetChan;
  }

  /** The operations that only rewrite what is left of the current fiber. */
  lemma UnfoldListens(s: State)
    requires WellFormed(s) && Listening(s) && s.current != ROOT && s.raised.None?
    requires var k := s.fibers[s.current].cont;
      k != [] && (k[0].Catch? || k[0].op.Emit? || k[0].op.Raise? || k[0].op.Rescue?)
    ensures Listening(Advance(s))
  {
    var k := s.fibers[s.current].cont;
    hide Continue, EndBody, FiberImpl, SpawnAndTransfer, BlockCurrent, UnblockFiber, Spawn, Unwind, Lift, Listening, WellFormed;
    match k[0]
    case Do(Rescue(body, handler)) => ContinueListens(s, Lift(body) + [Catch(handler)] + k[1..], None, []);
    case Do(Emit(n)) => ContinueListens(s, k[1..], None, [Out(n)]);
    case Do(Raise(e)) => ContinueListens(s, k[1..], Some(e), []);
    case Catch(_) => ContinueListens(s, k[1..], None, []);
  }

  lemma TimeoutListens(s: State, body: seq<Op>)
    requires Controlled(s) && Listening(s) && s.current != ROOT && s.raised.None?
    requires s.fibers[s.current].cont != [] && s.fibers[s.current].cont[0] == Do(TimeoutAfter(body))
    ensures Listening(Advance(s))
  {
    var k := s.fibers[s.current].cont;
    OtherSpawnListens(s, Timer);
    var (s1, failed) := Spawn(s, Timer);
    hide Continue, EndBody, FiberImpl, SpawnAndTransfer, BlockCurrent, UnblockFiber, Unwind, Lift, Listens,
         OneExecutes, BorrowMatches, TasksAccounted;
    if failed.Some? {
      ContinueListens(s, k[1..], failed, []);
    } else {
      ContinueListens(s1.(timers := s.timers + 1), Lift(body) + k[1..], None, []);
    }
  }

  lemma AwaitListens(s: State)
    requires Controlled(s) && Listening(s) && s.current != ROOT
    ensures Listening(SpawnAndTransfer(s, External))
  {
    OtherSpawnListens(s, External);
    hide SpawnAndTransfer, Spawn, Listening, Controlled;
    SuspendListens(s, External);
  }

  lemma StepListens(s: State)
    requires Controlled(s) && Listening(s) && s.current != ROOT
    ensures Listening(Advance(s))
  {
    assert WellFormed(s);
    var k := s.fibers[s.current].cont;
    hide Continue, EndBody, FiberImpl, SpawnAndTransfer, BlockCurrent, UnblockFiber, Unwind, Spawn, Lift, Controlled, Listening,
         ParentsInRange, TasksInRange, SendersInRange;
    if s.raised.Some? {
      if Unwind(k).Some? { ContinueListens(s, Unwind(k).value, None, []); } else { EndBodyListens(s, Err(s.raised.value)); }
    } else if k == [] {
      EndBodyListens(s, Ok(Nil));
    } else {
      match k[0]
      case Do(Schedule(body)) => FiberImplListens(s, body);
      case Do(Await) => AwaitListens(s);
      case Do(Block(timed)) => BlockListens(s, timed);
      case Do(Unblock(target)) =>
        UnblockListens(s, target);
        var (s1, res) := UnblockFiber(s, target);
        ContinueListens(s1, Tail(s1.fibers[s1.current].cont), ErrorOf(res), [In(res)]);
      case Do(TimeoutAfter(body)) => TimeoutListens(s, body);
      case _ => UnfoldListens(s);
    }
  }

  lemma SettledLeaves(tasks: map<nat, Task>, t: nat)
    requires t in tasks && !tasks[t].phase.Pending?
    ensures Blocks(tasks - {t}) == Blocks(tasks)
  {
  }

  lemma JoinListens(s: State, t: nat)
    requires WellFormed(s) && Listening(s) && Enabled(s, TaskJoined(t))
    ensures Listening(Join(s, t))
  {
    var task, q := s.tasks[t], Join(s, t);
    SettledLeaves(s.tasks, t);
    hide Arrive, Blocks, Listens, ParentsInRange, SendersInRange;
    if task.phase.Finished? && IsAlive(s, task.owner) {
      var s1 := s.(borrowed := false, tasks := s.tasks - {t}, joined := s.joined[t := Delivered(task.phase.res)], rootPc := Delivering);
      ArriveQuiet(s, s1, task.owner, task.phase.res);
    }
  }

  lemma SettledTimer(tasks: map<nat, Task>, t: nat, phase: Phase)
    requires t in tasks && tasks[t].kind.Timer?
    ensures Blocks(tasks[t := tasks[t].(phase := phase)]) == Blocks(tasks)
  {
  }

  lemma FireTimerListens(s: State, t: nat)
    requires WellFormed(s) && Listening(s) && Enabled(s, TimerFires(t))
    ensures Listening(FireTimer(s, t))
  {
    var f := s.tasks[t].owner;
    forall phase ensures Blocks(s.tasks[t := s.tasks[t].(phase := phase)]) == Blocks(s.tasks) {
      SettledTimer(s.tasks, t, phase);
    }
    hide Arrive, Blocks, Listens, ParentsInRange, SendersInRange;
    if CheckSuspended(s, f).None? {
      ArriveQuiet(s, s.(rootPc := Polling(t)), f, Err(TimedOut));
    }
  }

  /** A task that stops being pending closes its own channel only. */
  lemma ClosesOwnChannel(blocks: map<nat, nat>, blockers: map<nat, nat>, chans: seq<Chan>, t: nat)
    requires Listens(blocks, blockers, chans) && t in blocks
    ensures blocks[t] < |chans| && Listens(blocks - {t}, blockers, SetChan(chans, blocks[t], Closed))
  {
    var chans', blocks' := SetChan(chans, blocks[t], Closed), blocks - {t};
    forall ch: nat | ch < |chans'| && chans'[ch].state.Open?
      ensures chans'[ch].fiber in blockers && blockers[chans'[ch].fiber] == ch && ch in blocks'.Values
    {
      assert ch in blocks.Values;
      var u :| u in blocks && blocks[u] == ch;
      assert blocks'[u] == ch;
    }
  }

  lemma PhaseListens(s: State, t: nat, phase: Phase)
    requires WellFormed(s) && Listening(s) && s.rootPc == Joining && t in s.tasks && s.tasks[t].phase.Pending? && !phase.Pending?
    ensures Listening(s.(tasks := s.tasks[t := s.tasks[t].(phase := phase)], chans := DropReceiver(s.chans, s.tasks[t].kind)))
  {
    var tasks := s.tasks[t := s.tasks[t].(phase := phase)];
    if s.tasks[t].kind.Blocking? {
      ClosesOwnChannel(Blocks(s.tasks), s.blockers, s.chans, t);
      assert Blocks(tasks) == Blocks(s.tasks) - {t};
    } else {
      assert Blocks(tasks) == Blocks(s.tasks);
    }
    hide Listens, SetChan, Blocks, WellFormed;
  }

  lemma RootHasNoEntry(s: State)
    requires Listening(s)
    ensures ROOT !in s.blockers
  {
  }

  /** The clean-up of `block` removes nothing: it runs on behalf of root, and root never has an entry. */
  lemma FinishKeepsMap(s: State, t: nat, res: Outcome)
    requires WellFormed(s) && s.current == ROOT && ROOT !in s.blockers && t in s.tasks
    ensures Finish(s, t, res) == s.(tasks := s.tasks[t := s.tasks[t].(phase := Finished(res))],
                                    chans := DropReceiver(s.chans, s.tasks[t].kind))
  {
    assert s.blockers - {ROOT} == s.blockers;
  }

  lemma InterruptListens(s: State, e: Error)
    requires WellFormed(s) && Listening(s)
    ensures Listening(Interrupt(s, e))
  {
    hide WellFormed;
    assert Quiet(s, Interrupt(s, e));
    QuietListens(s, Interrupt(s, e));
  }

  lemma NextListens(s: State, a: Action)
    requires Controlled(s) && Listening(s) && Enabled(s, a)
    ensures Listening(Next(s, a))
  {
    assert WellFormed(s);
    assert a.TaskFinishes? ==> s.current == ROOT;
    hide Advance, FiberImpl, UnblockFiber, Join, FireTimer, Finish, Interrupt, DropReceiver, Controlled, Listens, Blocks,
         ParentsInRange, SendersInRange;
    match a
    case RootSchedule(script) => FiberImplListens(s, script);
    case RootUnblock(target) => UnblockListens(s, target);
    case Step => StepListens(s);
    case TaskJoined(t) => JoinListens(s, t);
    case TimerFires(t) => FireTimerListens(s, t);
    case TaskFinishes(t, res) => RootHasNoEntry(s); FinishKeepsMap(s, t, res); PhaseListens(s, t, Finished(res));
    case TaskPanics(t) => PhaseListens(s, t, Crashed);
    case TaskCancelled(t) => PhaseListens(s, t, Crashed);
    case Interrupted(e) => InterruptListens(s, e);
    case RootRun(closing) =>
    case SetEmpty =>
  }

  lemma {:induction false} RunsListen(s: State, actions: seq<Action>, s': State)
    requires Controlled(s) && Listening(s) && Runs(s, actions, s')
    ensures Controlled(s') && Listening(s')
    decreases |actions|
  {
    hide Next, OneExecutes, BorrowMatches, TasksAccounted, Listening;
    if actions != [] {
      NextControlled(s, actions[0]);
      NextListens(s, actions[0]);
      RunsListen(Next(s, actions[0]), actions[1..], s');
    }
  }

  /** In every reachable state, whatever timers do: each pending block has its receiver, on a channel that
      is nobody else's; a channel is open exactly as long as its sender is in the map and its block is
      pending; every other sender in the map is stale. */
  lemma ReachableListening(s: State)
    requires Reachable(s)
    ensures Controlled(s) && Listening(s)
  {
    assert Controlled(Init()) && Listening(Init());
    hide Init, Controlled, Listening;
    var actions :| Runs(Init(), actions, s);
    RunsListen(Init(), actions, s);
  }

  /** The sender of a block's channel is in the map. */
  ghost predicate SenderInMap(s: State, ch: nat) {
    exists f :: f in s.blockers && s.blockers[f] == ch
  }

  /** How a pending block can end, exactly, in every run: by its timeout, if it has one, as long as its
      sender is in the map; with true once unblock has used the sender; and for want of a sender only if
      the sender was neither used nor is in the map, because the fiber has blocked anew. */
  lemma BlockEndsExactly(s: State, t: nat, res: Outcome)
    requires Reachable(s) && t in s.tasks && PendingBlock(s.tasks[t]) && !s.tasks[t].aborted
    ensures s.tasks[t].kind.chan < |s.chans|
    ensures var ch, timed := s.tasks[t].kind.chan, s.tasks[t].kind.timed;
      MayFinish(s, s.tasks[t], res) <==>
        if SenderInMap(s, ch) then timed && res == Err(TimedOut)
        else if s.chans[ch].state.Signalled? then res == Ok(True)
        else res == Err(SenderDropped)
  {
    ReachableListening(s);
    assert t in Blocks(s.tasks);
    var ch := s.tasks[t].kind.chan;
    if s.chans[ch].state.Open? {
      assert s.blockers[s.chans[ch].fiber] == ch;
    }
  }

  /** What the future of any other hook ends with is up to the world outside: every outcome is possible,
      and it is the one the task is finished with. */
  lemma HookEndsAnyhow(s: State, t: nat, res: Outcome)
    requires WellFormed(s) && s.rootPc == Joining && t in s.tasks
    requires s.tasks[t].kind.External? && s.tasks[t].phase.Pending? && !s.tasks[t].aborted
    ensures Enabled(s, TaskFinishes(t, res))
    ensures Next(s, TaskFinishes(t, res)) == s.(tasks := s.tasks[t := s.tasks[t].(phase := Finished(res))])
  {
    hide WellFormed, FiberImpl, UnblockFiber, Advance, FireTimer, Join, Crash, Interrupt;
  }
}
