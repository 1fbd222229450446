/** FiberFuture::poll wakes its own task whenever it is pending.

    An executor polls a task only after a wake. A future that returns pending is expected to have arranged
    one; FiberFuture does not trust its inner future with that and calls wake_by_ref itself, while the
    task is still running. The executor turns a wake of a running task into a note, and puts the task back
    into its queue when the poll returns. */
module Requeue {
  import opened Scripts

  /** A task as the executor sees it: waiting for a wake, in the queue, being polled, being polled with a
      wake noted, finished. */
  datatype Slot = Idle | Notified | Running | RunningNotified | Complete

  predicate IsRunning(slot: Slot) {
    slot.Running? || slot.RunningNotified?
  }

  function AfterWake(slot: Slot): Slot {
    match slot
    case Idle => Notified
    case Running => RunningNotified
    case _ => slot
  }

  // ---- one poll -----------------------------------------------------------------------------------

  class Waker {
    var slot: Slot

    constructor (slot: Slot)
      ensures this.slot == slot
    {
      this.slot := slot;
    }

    method WakeByRef()
      modifies this
      ensures slot == AfterWake(old(slot))
    {
      slot := AfterWake(slot);
    }
  }

  datatype Resumable = Resumable(fiber: nat, value: Outcome)

  class FiberFuture {
    const fiber: nat

    /** The future remembers the fiber that was current when it was made. */
    constructor (current: nat)
      ensures fiber == current
    {
      fiber := current;
    }

    /** `inner` is what polling the inner future gave. A result goes out with the fiber to resume; a
        pending poll leaves its task with a wake noted, whatever the inner future and others did. */
    method Poll(inner: Option<Outcome>, waker: Waker) returns (r: Option<Resumable>)
      requires IsRunning(waker.slot)
      modifies waker
      ensures inner.Some? ==> r == Some(Resumable(fiber, inner.value)) && waker.slot == old(waker.slot)
      ensures inner.None? ==> r == None && waker.slot == RunningNotified
    {
      match inner
      case Some(value) =>
        return Some(Resumable(fiber, value));
      case None =>
        waker.WakeByRef();
        return None;
    }
  }

  // ---- whole histories of an executor -------------------------------------------------------------

  datatype Executor = Executor(slots: map<nat, Slot>, queue: multiset<nat>)

  /** `Woken` is a wake by whomever: the poll itself, a timer, another thread, a stale waker. */
  datatype Event = Spawned(task: nat) | PollStarts(task: nat) | Woken(task: nat) | PollReturns(task: nat, ready: bool)

  /** One task is polled at a time, and only from the queue; a wake can come at any time. */
  predicate Possible(x: Executor, e: Event) {
    match e
    case Spawned(t) => t !in x.slots
    case PollStarts(t) => t in x.queue && forall u | u in x.slots :: !IsRunning(x.slots[u])
    case Woken(t) => t in x.slots
    case PollReturns(t, _) => t in x.slots && IsRunning(x.slots[t])
  }

  function After(x: Executor, e: Event): Executor {
    match e
    case Spawned(t) => Executor(x.slots[t := Notified], x.queue + multiset{t})
    case PollStarts(t) => Executor(x.slots[t := Running], x.queue - multiset{t})
    case Woken(t) =>
      if t !in x.slots then x
      else Executor(x.slots[t := AfterWake(x.slots[t])], if x.slots[t].Idle? then x.queue + multiset{t} else x.queue)
    case PollReturns(t, ready) =>
      if t !in x.slots then x
      else if ready then x.(slots := x.slots[t := Complete])
      else if x.slots[t].RunningNotified? then Executor(x.slots[t := Notified], x.queue + multiset{t})
      else x.(slots := x.slots[t := Idle])
  }

  function AfterAll(events: seq<Event>): Executor {
    if events == [] then Executor(map[], multiset{})
    else After(AfterAll(events[..|events| - 1]), events[|events| - 1])
  }

  ghost predicate AllPossible(events: seq<Event>) {
    events != [] ==>
      AllPossible(events[..|events| - 1]) && Possible(AfterAll(events[..|events| - 1]), events[|events| - 1])
  }

  predicate IsIdle(x: Executor, t: nat) {
    t in x.slots && x.slots[t].Idle?
  }

  /** A task is in the queue once if it has been notified, and not at all otherwise. */
  ghost predicate QueueSound(x: Executor) {
    forall t: nat :: x.queue[t] == if t in x.slots && x.slots[t].Notified? then 1 else 0
  }

  /** One task is polled at most. */
  ghost predicate OneRuns(slots: map<nat, Slot>) {
    forall t, u | t in slots && u in slots && IsRunning(slots[t]) && IsRunning(slots[u]) :: t == u
  }

  ghost predicate Sound(x: Executor) {
    QueueSound(x) && OneRuns(x.slots)
  }

  lemma SlotKeepsOneRuns(slots: map<nat, Slot>, t: nat, slot: Slot)
    requires OneRuns(slots)
    requires IsRunning(slot) ==> (forall u | u in slots :: !IsRunning(slots[u])) || (t in slots && IsRunning(slots[t]))
    ensures OneRuns(slots[t := slot])
  {
  }

  lemma EventKeepsSound(x: Executor, e: Event)
    requires Sound(x) && Possible(x, e)
    ensures Sound(After(x, e))
  {
    var t, r := e.task, After(x, e);
    SlotKeepsOneRuns(x.slots, t, r.slots[t]);
    hide OneRuns;
    assert x.queue[t] == if t in x.slots && x.slots[t].Notified? then 1 else 0;
    match e
    case Spawned(_) => assert Sound(r);
    case PollStarts(_) => assert Sound(r);
    case Woken(_) => assert Sound(r);
    case PollReturns(_, _) => assert Sound(r);
  }

  lemma {:induction false} AlwaysSound(events: seq<Event>)
    requires AllPossible(events)
    ensures Sound(AfterAll(events))
  {
    hide Sound, Possible, After;
    if events != [] {
      var n := |events| - 1;
      AlwaysSound(events[..n]);
      EventKeepsSound(AfterAll(events[..n]), events[n]);
    } else {
      NothingIsSound();
    }
  }

  lemma NothingIsSound()
    ensures Sound(AfterAll([]))
  {
  }

  /** Task `t` has been woken since its last poll began. */
  predicate WokenInPoll(events: seq<Event>, t: nat) {
    events != [] &&
    var last := events[|events| - 1];
    last == Woken(t) || (last != PollStarts(t) && WokenInPoll(events[..|events| - 1], t))
  }

  lemma EventNotes(x: Executor, e: Event, t: nat)
    requires Possible(x, e) && t in After(x, e).slots && IsRunning(After(x, e).slots[t])
    ensures if e == PollStarts(t) then After(x, e).slots[t] == Running
            else t in x.slots && IsRunning(x.slots[t])
                 && (After(x, e).slots[t].RunningNotified? <==> x.slots[t].RunningNotified? || e == Woken(t))
  {
    match e
    case Spawned(_) =>
    case PollStarts(_) =>
    case Woken(_) =>
    case PollReturns(_, _) =>
  }

  /** The note the executor keeps of a running task is true. */
  lemma {:induction false} RunningKnows(events: seq<Event>, t: nat)
    requires AllPossible(events) && t in AfterAll(events).slots && IsRunning(AfterAll(events).slots[t])
    ensures AfterAll(events).slots[t].RunningNotified? <==> WokenInPoll(events, t)
  {
    var n := |events| - 1;
    EventNotes(AfterAll(events[..n]), events[n], t);
    hide After, Possible;
    if events[n] != PollStarts(t) {
      RunningKnows(events[..n], t);
    }
  }

  /** Every poll of `t` that returned pending was one during which `t` was woken. A FiberFuture sees to that
      itself: its pending branch is a wake of `t` between the start and the return of the poll. */
  predicate WakesItself(events: seq<Event>, t: nat) {
    events != [] ==>
      var n := |events| - 1;
      WakesItself(events[..n], t) && (events[n] == PollReturns(t, false) ==> WokenInPoll(events[..n], t))
  }

  /** At no moment of the history does `t` wait for a wake. */
  predicate NeverIdle(events: seq<Event>, t: nat) {
    !IsIdle(AfterAll(events), t) && (events != [] ==> NeverIdle(events[..|events| - 1], t))
  }

  /** When a task is lost from sight, exactly: it never waits for a wake if and only if each of its
      pending polls was one during which it was woken. The wake must come during the poll; that others
      may wake the task at any other time changes nothing. */
  lemma {:induction false} NeverIdleExactly(events: seq<Event>, t: nat)
    requires AllPossible(events)
    ensures NeverIdle(events, t) <==> WakesItself(events, t)
  {
    if events != [] {
      var n := |events| - 1;
      NeverIdleExactly(events[..n], t);
      if events[n] == PollReturns(t, false) {
        RunningKnows(events[..n], t);
      }
    }
  }

  /** What FiberFuture is for: its polls wake their own task, so at every moment a task that was spawned
      and has not finished is being polled or stands in the queue, once. */
  lemma UnfinishedStaysQueued(events: seq<Event>, t: nat)
    requires AllPossible(events) && WakesItself(events, t) && Spawned(t) in events
    ensures var x := AfterAll(events);
      && t in x.slots && (x.slots[t].Complete? <==> PollReturns(t, true) in events)
      && (!x.slots[t].Complete? ==> if IsRunning(x.slots[t]) then x.queue[t] == 0 else x.queue[t] == 1)
  {
    AlwaysSound(events);
    NeverIdleExactly(events, t);
    CompleteExactly(events, t);
  }

  predicate IsComplete(x: Executor, t: nat) {
    t in x.slots && x.slots[t].Complete?
  }

  lemma EventCompletes(x: Executor, e: Event, t: nat)
    requires Sound(x) && Possible(x, e)
    ensures t in After(x, e).slots <==> t in x.slots || e == Spawned(t)
    ensures IsComplete(After(x, e), t) <==> IsComplete(x, t) || e == PollReturns(t, true)
  {
    match e
    case Spawned(_) =>
    case PollStarts(u) => assert x.queue[u] > 0;
    case Woken(_) =>
    case PollReturns(_, _) =>
  }

  lemma {:induction false} CompleteExactly(events: seq<Event>, t: nat)
    requires AllPossible(events)
    ensures t in AfterAll(events).slots <==> Spawned(t) in events
    ensures IsComplete(AfterAll(events), t) <==> PollReturns(t, true) in events
  {
    hide After, Possible, IsComplete, Sound;
    if events != [] {
      var n := |events| - 1;
      CompleteExactly(events[..n], t);
      AlwaysSound(events[..n]);
      EventCompletes(AfterAll(events[..n]), events[n], t);
      assert forall e :: e in events <==> e in events[..n] || e == events[n] by {
        assert events == events[..n] + [events[n]];
      }
    } else {
      NothingHappened(t);
    }
  }

  lemma NothingHappened(t: nat)
    ensures t !in AfterAll([]).slots && !IsComplete(AfterAll([]), t)
  {
  }

  /** The poll of a future that trusts others to wake it. */
  function TrustingPoll(): seq<Event> {
    [Spawned(0), PollStarts(0), PollReturns(0, false)]
  }

  /** Without the wake the task is idle, and stays so, never polled again, for as long as nobody else
      wakes it. */
  lemma {:induction false} LostWithoutWake(more: seq<Event>)
    requires AllPossible(TrustingPoll() + more) && Woken(0) !in more
    ensures IsIdle(AfterAll(TrustingPoll() + more), 0) && PollStarts(0) !in more
  {
    hide After, Possible, Sound, IsIdle;
    if more == [] {
      assert TrustingPoll() + more == TrustingPoll();
      TrustingPollIsIdle();
    } else {
      var events, n := TrustingPoll() + more, |more| - 1;
      var before := TrustingPoll() + more[..n];
      assert events[..|events| - 1] == before && events[|events| - 1] == more[n];
      assert forall e :: e in more <==> e in more[..n] || e == more[n] by {
        assert more == more[..n] + [more[n]];
      }
      LostWithoutWake(more[..n]);
      AlwaysSound(before);
      IdleStays(AfterAll(before), more[n], 0);
    }
  }

  lemma IdleStays(x: Executor, e: Event, t: nat)
    requires Sound(x) && Possible(x, e) && IsIdle(x, t) && e != Woken(t)
    ensures IsIdle(After(x, e), t) && e != PollStarts(t)
  {
    match e
    case Spawned(_) =>
    case PollStarts(u) => assert x.queue[u] > 0;
    case Woken(_) =>
    case PollReturns(_, _) =>
  }

  lemma TrustingPollIsIdle()
    ensures AllPossible(TrustingPoll()) && IsIdle(AfterAll(TrustingPoll()), 0)
  {
    var none: seq<Event> := [];
    var one, two := [Spawned(0)], [Spawned(0), PollStarts(0)];
    assert one[..0] == none && two[..1] == one && TrustingPoll()[..2] == two;
    assert AllPossible(none) && AfterAll(none) == Executor(map[], multiset{});
    StepForward(one);
    assert AfterAll(one) == Executor(map[0 := Notified], multiset{0}) && AllPossible(one);
    StepForward(two);
    assert AfterAll(two) == Executor(map[0 := Running], multiset{}) && AllPossible(two);
    hide AfterAll, AllPossible;
    StepForward(TrustingPoll());
  }

  lemma StepForward(events: seq<Event>)
    requires events != [] && AllPossible(events[..|events| - 1])
    requires Possible(AfterAll(events[..|events| - 1]), events[|events| - 1])
    ensures AllPossible(events)
    ensures AfterAll(events) == After(AfterAll(events[..|events| - 1]), events[|events| - 1])
  {
  }
}
