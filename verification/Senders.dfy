/** block, unblock and the sender map, in every run without timeout_after.

    The map may hold stale senders: after a timeout the clean-up of `block` removes the entry of the
    fiber that is current when the future is polled, which is root, so the entry of the blocked fiber
    stays. The invariant says what is true all the same. */
module Senders {
  import opened Scripts
  import opened Machine
  import opened Control
  import opened WaitChains
  import opened Listeners

  /** A pending block's channel still has its sender, in the map unless it has been used; a finished
      or crashed block has dropped its receiver and never fails for want of a sender. */
  ghost predicate ReceiverOk(tasks: map<nat, Task>, blockers: map<nat, nat>, chans: seq<Chan>, t: nat)
    requires t in tasks
  {
    var task := tasks[t];
    task.kind.Blocking? ==>
      var ch := task.kind.chan;
      && ch < |chans| && chans[ch].fiber == task.owner
      && (task.phase.Pending? ==> chans[ch].state.Open? || chans[ch].state.Signalled?)
      && (task.phase.Pending? && chans[ch].state.Open? ==> task.owner in blockers && blockers[task.owner] == ch)
      && (!task.phase.Pending? ==> chans[ch].state.Closed?)
      && (task.phase.Finished? ==> task.phase.res == Ok(True) || task.phase.res == Err(TimedOut))
  }

  /** An entry of the map is either the sender of its fiber's pending block or stale. */
  ghost predicate SenderOk(fs: seq<Fiber>, tasks: map<nat, Task>, blockers: map<nat, nat>, chans: seq<Chan>, f: nat)
    requires f in blockers
  {
    var ch := blockers[f];
    && 0 < f < |fs| && ch < |chans| && chans[ch].fiber == f
    && (chans[ch].state.Open? || chans[ch].state.Closed?)
    && (chans[ch].state.Open? ==>
          && fs[f].pc.Awaiting? && fs[f].pc.task in tasks
          && tasks[fs[f].pc.task].phase.Pending?
          && tasks[fs[f].pc.task].kind.Blocking? && tasks[fs[f].pc.task].kind.chan == ch)
  }

  ghost predicate Receivers(tasks: map<nat, Task>, blockers: map<nat, nat>, chans: seq<Chan>) {
    forall t | t in tasks :: ReceiverOk(tasks, blockers, chans, t)
  }

  ghost predicate MapOk(fs: seq<Fiber>, tasks: map<nat, Task>, blockers: map<nat, nat>, chans: seq<Chan>) {
    forall f | f in blockers :: SenderOk(fs, tasks, blockers, chans, f)
  }

  ghost predicate Paired(s: State) {
    Receivers(s.tasks, s.blockers, s.chans) && MapOk(s.fibers, s.tasks, s.blockers, s.chans)
  }

  // ---- what each change keeps ---------------------------------------------------------------

  lemma AwaitersStay(fs: seq<Fiber>, gs: seq<Fiber>, tasks: map<nat, Task>, blockers: map<nat, nat>, chans: seq<Chan>)
    requires MapOk(fs, tasks, blockers, chans) && |fs| <= |gs|
    requires forall f | 0 < f < |fs| && fs[f].pc.Awaiting? :: gs[f].pc == fs[f].pc
    ensures MapOk(gs, tasks, blockers, chans)
  {
    forall f | f in blockers ensures SenderOk(gs, tasks, blockers, chans, f) {
      assert SenderOk(fs, tasks, blockers, chans, f);
    }
  }

  /** The running fiber owns no task, and its entry in the map, if any, is stale. */
  lemma CurrentOwnsNothing(s: State)
    requires Controlled(s) && Chained(s) && Paired(s) && s.current != ROOT
    ensures DropSender(s, s.current) == s.chans && s.spawned !in s.tasks
    ensures forall t | t in s.tasks :: s.tasks[t].owner != s.current
  {
    hide Links, Receivers, TimersCounted;
    if s.current in s.blockers { assert SenderOk(s.fibers, s.tasks, s.blockers, s.chans, s.current); }
  }

  lemma BlockPairs(s: State, timed: bool)
    requires Controlled(s) && Chained(s) && Paired(s) && s.current != ROOT
    ensures Paired(BlockCurrent(s, timed))
  {
    BlockSuspends(s, timed);
    CurrentOwnsNothing(s);
    var r, f, t := BlockCurrent(s, timed), s.current, s.spawned;
    BlockKeepsReceivers(s, timed);
    hide BlockCurrent, DropSender, Controlled, Chained, Receivers, ReceiverOk;
    forall g | g in r.blockers ensures SenderOk(r.fibers, r.tasks, r.blockers, r.chans, g) {
      if g != f { assert SenderOk(s.fibers, s.tasks, s.blockers, s.chans, g); }
    }
  }

  lemma BlockKeepsReceivers(s: State, timed: bool)
    requires Controlled(s) && Chained(s) && Paired(s) && s.current != ROOT
    ensures var r := BlockCurrent(s, timed); Receivers(r.tasks, r.blockers, r.chans)
  {
    BlockSuspends(s, timed);
    CurrentOwnsNothing(s);
    var r, f, t := BlockCurrent(s, timed), s.current, s.spawned;
    hide BlockCurrent, DropSender, Controlled, Chained, MapOk;
    forall u | u in r.tasks ensures ReceiverOk(r.tasks, r.blockers, r.chans, u) {
      if u != t { assert ReceiverOk(s.tasks, s.blockers, s.chans, u); }
    }
  }

  lemma AwaitPairs(s: State)
    requires Controlled(s) && Chained(s) && Paired(s) && s.current != ROOT
    ensures Paired(SpawnAndTransfer(s, External))
  {
    HookSuspends(s, External);
    assert s.spawned !in s.tasks;
    var r := SpawnAndTransfer(s, External);
    hide SpawnAndTransfer, WellFormed, Links, Owners, Partitioned, TimersCounted, BorrowMatches;
    forall t | t in r.tasks ensures ReceiverOk(r.tasks, r.blockers, r.chans, t) {
      if t != s.spawned { assert ReceiverOk(s.tasks, s.blockers, s.chans, t); }
    }
    forall f | f in r.blockers ensures SenderOk(r.fibers, r.tasks, r.blockers, r.chans, f) {
      assert SenderOk(s.fibers, s.tasks, s.blockers, s.chans, f);
    }
  }

  lemma UnblockPairs(s: State, target: nat)
    requires Controlled(s) && Chained(s) && Paired(s)
    ensures Paired(UnblockFiber(s, target).0)
  {
    UnblockFrame(s, target);
    var r := UnblockFiber(s, target).0;
    hide WellFormed, Links, OneExecutes, Partitioned, TimersCounted, BorrowMatches;
    if target < |s.fibers| && CheckSuspended(s, target).None? && target in s.blockers {
      assert SenderOk(s.fibers, s.tasks, s.blockers, s.chans, target);
      var ch := s.blockers[target];
      assert r.blockers == s.blockers - {target};
      assert forall i | 0 <= i < |s.chans| && i != ch :: r.chans[i] == s.chans[i];
      assert r.chans[ch].fiber == target && !r.chans[ch].state.Open?;
      assert s.chans[ch].state.Open? ==> r.chans[ch].state.Signalled?;
      assert s.chans[ch].state.Closed? ==> r.chans == s.chans;
      hide UnblockFiber;
      forall t | t in r.tasks ensures ReceiverOk(r.tasks, r.blockers, r.chans, t) {
        assert ReceiverOk(s.tasks, s.blockers, s.chans, t);
      }
      forall f | f in r.blockers ensures SenderOk(r.fibers, r.tasks, r.blockers, r.chans, f) {
        assert SenderOk(s.fibers, s.tasks, s.blockers, s.chans, f);
      }
    }
  }

  /** A pending task gets a final phase: its channel closes, no other block's channel changes. */
  lemma PhasePairs(s: State, r: State, t: nat, phase: Phase)
    requires Owners(s.fibers, s.tasks, s.joined) && Paired(s) && t in s.tasks && s.tasks[t].phase.Pending? && !phase.Pending?
    requires s.tasks[t].kind.Blocking? && phase.Finished? ==> phase.res == Ok(True) || phase.res == Err(TimedOut)
    requires r.fibers == s.fibers && r.tasks == s.tasks[t := s.tasks[t].(phase := phase)] && r.blockers == s.blockers
    requires s.tasks[t].kind.Blocking? ==> s.tasks[t].kind.chan < |s.chans|
    requires r.chans == DropReceiver(s.chans, s.tasks[t].kind)
    ensures Paired(r)
  {
    assert ReceiverOk(s.tasks, s.blockers, s.chans, t);
    forall u | u in r.tasks ensures ReceiverOk(r.tasks, r.blockers, r.chans, u) {
      assert ReceiverOk(s.tasks, s.blockers, s.chans, u);
    }
    forall f | f in r.blockers ensures SenderOk(r.fibers, r.tasks, r.blockers, r.chans, f) {
      assert SenderOk(s.fibers, s.tasks, s.blockers, s.chans, f);
    }
  }

  lemma RootNeverBlocks(s: State)
    requires Paired(s)
    ensures ROOT !in s.blockers
  {
    assert forall f | f in s.blockers :: SenderOk(s.fibers, s.tasks, s.blockers, s.chans, f);
  }

  lemma FinishPairs(s: State, t: nat, res: Outcome)
    requires Controlled(s) && Chained(s) && Paired(s) && Enabled(s, TaskFinishes(t, res))
    ensures Paired(Finish(s, t, res))
  {
    RootNeverBlocks(s);
    FinishKeepsMap(s, t, res);
    assert ReceiverOk(s.tasks, s.blockers, s.chans, t);
    hide Finish, Links, Owners, OneExecutes, TasksAccounted, MapOk, Receivers;
    PhasePairs(s, Finish(s, t, res), t, Finished(res));
  }

  lemma InterruptPairs(s: State, e: Error)
    requires Paired(s) && WellFormed(s)
    ensures Paired(Interrupt(s, e))
  {
    var r := Interrupt(s, e);
    hide WellFormed;
    forall u | u in r.tasks ensures ReceiverOk(r.tasks, r.blockers, r.chans, u) {
      assert ReceiverOk(s.tasks, s.blockers, s.chans, u);
    }
    forall f | f in r.blockers ensures SenderOk(r.fibers, r.tasks, r.blockers, r.chans, f) {
      assert SenderOk(s.fibers, s.tasks, s.blockers, s.chans, f);
    }
  }

  lemma JoinPairs(s: State, t: nat)
    requires Controlled(s) && Chained(s) && Paired(s) && Enabled(s, TaskJoined(t))
    ensures Paired(Join(s, t))
  {
    var o := s.tasks[t].owner;
    assert s.fibers[o].pc == Awaiting(t);
    if s.tasks[t].phase.Crashed? { JoinStrands(s, t); } else { JoinDelivers(s, t, s.tasks[t].phase.res); }
    var r := Join(s, t);
    hide Join, Controlled, Chained, WithLeaf, Logged, Tail, Receivers, MapOk;
    FewerReceivers(s.tasks, s.blockers, s.chans, t);
    JoinedWasNoSender(s.fibers, r.fibers, s.tasks, s.blockers, s.chans, t);
  }

  lemma FewerReceivers(tasks: map<nat, Task>, blockers: map<nat, nat>, chans: seq<Chan>, t: nat)
    requires Receivers(tasks, blockers, chans)
    ensures Receivers(tasks - {t}, blockers, chans)
  {
    forall u | u in tasks - {t} ensures ReceiverOk(tasks - {t}, blockers, chans, u) {
      assert ReceiverOk(tasks, blockers, chans, u);
    }
  }

  /** A task that is no longer pending is not behind any live sender. */
  lemma JoinedWasNoSender(fs: seq<Fiber>, gs: seq<Fiber>, tasks: map<nat, Task>, blockers: map<nat, nat>,
                          chans: seq<Chan>, t: nat)
    requires MapOk(fs, tasks, blockers, chans) && t in tasks && !tasks[t].phase.Pending? && |gs| == |fs|
    requires forall f | 0 < f < |fs| && fs[f].pc.Awaiting? && fs[f].pc.task != t :: gs[f].pc == fs[f].pc
    ensures MapOk(gs, tasks - {t}, blockers, chans)
  {
    forall f | f in blockers ensures SenderOk(gs, tasks - {t}, blockers, chans, f) {
      assert SenderOk(fs, tasks, blockers, chans, f);
    }
  }

  lemma EndBodyPairs(s: State, res: Outcome)
    requires Controlled(s) && Chained(s) && Paired(s) && s.current != ROOT
    ensures Paired(EndBody(s, res))
  {
    var r := EndBody(s, res);
    if s.fibers[s.current].parent.Some? { NestedBodyReturns(s, res); } else { RootBodyEnds(s, res); }
    hide EndBody, Links, Owners, Partitioned, TimersCounted, MapOk, Receivers, WithLeaf, WithVerdict;
    AwaitersStay(s.fibers, r.fibers, s.tasks, s.blockers, s.chans);
  }

  lemma FiberImplPairs(s: State, body: seq<Op>)
    requires Controlled(s) && Paired(s)
    ensures Paired(FiberImpl(s, body))
  {
    hide MapOk, Receivers, Partitioned, TimersCounted, WithLeaf;
    AwaitersStay(s.fibers, FiberImpl(s, body).fibers, s.tasks, s.blockers, s.chans);
  }

  lemma ContinuePairs(s: State, cont: seq<Item>, raised: Option<Error>, events: seq<Event>)
    requires WellFormed(s) && Paired(s)
    ensures Paired(Continue(s, cont, raised, events))
  {
    hide MapOk, Receivers;
    AwaitersStay(s.fibers, Continue(s, cont, raised, events).fibers, s.tasks, s.blockers, s.chans);
  }

  lemma StepPairs(s: State)
    requires Controlled(s) && Chained(s) && Paired(s) && s.current != ROOT && Advance(s).timers == 0
    ensures Paired(Advance(s))
  {
    assert WellFormed(s);
    var k := s.fibers[s.current].cont;
    hide Continue, EndBody, FiberImpl, SpawnAndTransfer, BlockCurrent, UnblockFiber, Unwind, Controlled, Chained, Paired;
    if s.raised.Some? {
      if Unwind(k).Some? { ContinuePairs(s, Unwind(k).value, None, []); } else { EndBodyPairs(s, Err(s.raised.value)); }
    } else if k == [] {
      EndBodyPairs(s, Ok(Nil));
    } else {
      match k[0]
      case Do(Schedule(body)) => FiberImplPairs(s, body);
      case Do(Await) => AwaitPairs(s);
      case Do(Block(timed)) => BlockPairs(s, timed);
      case Do(Unblock(target)) =>
        UnblockPairs(s, target);
        var (s1, res) := UnblockFiber(s, target);
        ContinuePairs(s1, Tail(s1.fibers[s1.current].cont), ErrorOf(res), [In(res)]);
      case Do(TimeoutAfter(body)) => StartsTimer(s, body);
      case Do(Rescue(body, handler)) => ContinuePairs(s, Lift(body) + [Catch(handler)] + k[1..], None, []);
      case Do(Emit(n)) => ContinuePairs(s, k[1..], None, [Out(n)]);
      case Do(Raise(e)) => ContinuePairs(s, k[1..], Some(e), []);
      case Catch(_) => ContinuePairs(s, k[1..], None, []);
    }
  }

  lemma NextPairs(s: State, a: Action)
    requires Controlled(s) && Chained(s) && Paired(s) && Enabled(s, a) && Next(s, a).timers == 0
    ensures Paired(Next(s, a))
  {
    assert !a.TimerFires?;
    assert WellFormed(s);
    hide Advance, FiberImpl, UnblockFiber, Join, FireTimer, Finish, Interrupt, Controlled, Chained, Receivers, MapOk;
    match a
    case RootSchedule(script) => FiberImplPairs(s, script);
    case RootUnblock(target) => UnblockPairs(s, target);
    case Step => StepPairs(s);
    case TaskJoined(t) => JoinPairs(s, t);
    case TaskFinishes(t, res) => FinishPairs(s, t, res);
    case TaskPanics(t) => CrashPairs(s, t);
    case TaskCancelled(t) => CrashPairs(s, t);
    case Interrupted(e) => InterruptPairs(s, e);
    case RootRun(closing) =>
    case SetEmpty =>
  }

  lemma CrashPairs(s: State, t: nat)
    requires Controlled(s) && Chained(s) && Paired(s) && t in s.tasks && s.tasks[t].phase.Pending?
    ensures Paired(Crash(s, t))
  {
    hide Links, OneExecutes, Partitioned, TimersCounted, Paired;
    PhasePairs(s, Crash(s, t), t, Crashed);
  }

  lemma {:induction false} RunsPaired(s: State, actions: seq<Action>, s': State)
    requires Controlled(s) && Chained(s) && Paired(s) && Runs(s, actions, s') && s'.timers == 0
    ensures Controlled(s') && Chained(s') && Paired(s')
    decreases |actions|
  {
    hide Next, OneExecutes, BorrowMatches, Partitioned, TimersCounted, Links, Owners, Receivers, MapOk;
    if actions != [] {
      var next := Next(s, actions[0]);
      NextControlled(s, actions[0]);
      TimersOnlyGrow(next, actions[1..], s');
      NextChained(s, actions[0]);
      NextPairs(s, actions[0]);
      RunsPaired(next, actions[1..], s');
    }
  }

  /** The sender-map invariant holds in every reachable state. */
  lemma ReachablePaired(s: State)
    requires Reachable(s) && s.timers == 0
    ensures Controlled(s) && Chained(s) && Paired(s)
  {
    InitChained();
    assert Paired(Init());
    hide Init, Controlled, Chained, Paired;
    var actions :| Runs(Init(), actions, s);
    RunsPaired(Init(), actions, s);
  }

  /** The clean-up of `block` removes nothing: it runs while `run` waits, on behalf of root, and root
      never has an entry. So a timed-out block leaves its own sender behind. */
  lemma FinishExactly(s: State, t: nat, res: Outcome)
    requires Reachable(s) && s.rootPc == Joining && t in s.tasks
    ensures s.current == ROOT && ROOT !in s.blockers
    ensures Finish(s, t, res) == s.(tasks := s.tasks[t := s.tasks[t].(phase := Finished(res))],
                                    chans := DropReceiver(s.chans, s.tasks[t].kind))
  {
    ReachableListening(s);
    RootHasNoEntry(s);
    FinishKeepsMap(s, t, res);
  }

  /** Every pending block can still be woken or time out: its sender is never dropped, so "sender
      dropped" is not an outcome any block can finish with. */
  lemma PendingBlockKeepsSender(s: State, t: nat, res: Outcome)
    requires Reachable(s) && s.timers == 0 && t in s.tasks && s.tasks[t].kind.Blocking?
    ensures s.tasks[t].phase.Pending? && s.chans[s.tasks[t].kind.chan].state != Signalled ==>
      s.tasks[t].owner in s.blockers && s.blockers[s.tasks[t].owner] == s.tasks[t].kind.chan
    ensures MayFinish(s, s.tasks[t], res) ==> res == Ok(True) || (res == Err(TimedOut) && s.tasks[t].kind.timed)
  {
    ReachablePaired(s);
    assert ReceiverOk(s.tasks, s.blockers, s.chans, t);
  }

  /** What unblock does, exactly: it wakes the target's pending block if there is one, does nothing if
      the map has no entry, and fails on a stale sender, waking nobody. */
  lemma UnblockExactly(s: State, f: nat)
    requires Reachable(s) && s.timers == 0 && 0 < f < |s.fibers| && CheckSuspended(s, f) == None
    ensures var (r, res) := UnblockFiber(s, f);
      && r.fibers == s.fibers && r.current == s.current && r.tasks == s.tasks && f !in r.blockers
      && (f !in s.blockers ==> r == s && res == Ok(Nil))
      && (f in s.blockers ==>
            var pc := s.fibers[f].pc;
            if pc.Awaiting? && pc.task in s.tasks && s.tasks[pc.task].kind.Blocking? && s.tasks[pc.task].phase.Pending?
               && s.chans[s.tasks[pc.task].kind.chan].state == Open
            then res == Ok(Nil) && r.chans == SetChan(s.chans, s.tasks[pc.task].kind.chan, Signalled)
            else res == Err(CouldNotUnblock) && r.chans == s.chans)
  {
    ReachablePaired(s);
    UnblockFrame(s, f);
    if f in s.blockers {
      assert SenderOk(s.fibers, s.tasks, s.blockers, s.chans, f);
      if s.fibers[f].pc.Awaiting? && s.fibers[f].pc.task in s.tasks {
        assert ReceiverOk(s.tasks, s.blockers, s.chans, s.fibers[f].pc.task);
      }
    }
  }
}
