/** TokioScheduler as an object: its methods, each proved to do what the state machine says.

    Ruby's fibers are part of the object: `fibers`, `current`, `raised` and `rootPc` are what the VM
    knows. A method that ends in a transfer ends there; what the source does after the transfer
    returns is the next step of whoever receives control. */
module Scheduler {
  import opened Scripts
  import opened Machine
  import opened Control
  import opened GcCells
  import opened Loop
  import opened Progress

  class TokioScheduler {
    const futuresToRun: GcCell<map<nat, Task>>
    const blockers: GcCell<map<nat, nat>>
    var runtimeOpen: bool
    var fibers: seq<Fiber>
    var current: nat
    var raised: Option<Error>
    var rootPc: RootPc
    var closing: bool
    var spawned: nat
    var chans: seq<Chan>
    var ret: Option<Outcome>
    ghost var joined: map<nat, Fate>
    ghost var trees: map<nat, Tree>
    ghost var timers: nat

    ghost function Snapshot(): State
      reads this, futuresToRun, blockers
    {
      State(fibers, current, raised, rootPc, closing, runtimeOpen, futuresToRun.value, spawned,
            futuresToRun.writers > 0, blockers.value, chans, ret, joined, trees, timers)
    }

    /** The cells are two, nobody reads through a guard, and at most one guard writes. */
    ghost predicate CellsOk()
      reads this, futuresToRun, blockers
    {
      && futuresToRun as object != blockers
      && futuresToRun.Counts() && futuresToRun.readers == 0 && futuresToRun.writers <= 1
      && blockers.Free()
    }

    ghost predicate Valid()
      reads this, futuresToRun, blockers
    {
      CellsOk() && WellFormed(Snapshot())
    }

    constructor ()
      ensures Valid() && Snapshot() == Init()
      ensures fresh(futuresToRun) && fresh(blockers)
    {
      futuresToRun := new GcCell(map[]);
      blockers := new GcCell(map[]);
      runtimeOpen, closing := true, false;
      fibers, current, raised, rootPc := [Fiber(Executing, [], None, ROOT)], ROOT, None, Idle;
      spawned, chans, ret := 0, [], None;
      joined, trees, timers := map[], map[], 0;
    }

    // ---- fibers ----------------------------------------------------------------------------------

    predicate IsCurrentFiberRoot()
      reads this
    {
      current == ROOT
    }

    function CheckSuspended(f: nat): (r: Option<Error>)
      requires f < |fibers|
      reads this, futuresToRun, blockers
      ensures r == Machine.CheckSuspended(Snapshot(), f)
      ensures Valid() && Controlled(Snapshot()) ==>
        (r == None <==> if f == ROOT then RootSuspended(rootPc) else FiberSuspended(fibers[f].pc))
    {
      if f != ROOT && fibers[f].pc.Terminated? then Some(FiberNotAlive)
      else if f == current then Some(FiberActive)
      else None
    }

    /** `run` returns, having let go of the task set. */
    method ExitRun(res: Outcome)
      requires Valid()
      modifies this
      ensures Valid() && Snapshot() == Machine.ExitRun(old(Snapshot()), res)
    {
      if closing && res.Ok? {
        runtimeOpen := false;
      }
      rootPc, ret, closing := Idle, Some(res), false;
    }

    method BeginJoin()
      requires Valid()
      modifies this, futuresToRun
      ensures Valid() && Snapshot() == Machine.BeginJoin(old(Snapshot()))
    {
      hide GcCells.After, I32;
      var ok := futuresToRun.TryBorrowMut();
      if !ok {
        ExitRun(Err(AlreadyBorrowed));
      } else {
        rootPc := Joining;
      }
    }

    method TransferToRoot(res: Outcome)
      requires Valid()
      modifies this, futuresToRun
      ensures Valid() && Snapshot() == ControlToRoot(old(Snapshot()), res)
    {
      current, raised := ROOT, None;
      match rootPc
      case Scheduling =>
        rootPc, ret := Idle, Some(res);
      case Delivering =>
        if res.Err? {
          ExitRun(res);
        } else {
          BeginJoin();
        }
      case Polling(t) =>
        rootPc := Joining;
        if t in futuresToRun.value {
          futuresToRun.value := futuresToRun.value[t := futuresToRun.value[t].(phase := Finished(res))];
        }
      case Idle =>
      case Joining =>
    }

    method SetPc(f: nat, pc: Pc)
      requires Valid() && f < |fibers|
      modifies this`fibers
      ensures Valid() && Snapshot() == WithPc(old(Snapshot()), f, pc)
    {
      fibers := fibers[f := fibers[f].(pc := pc)];
    }

    /** transfer or raise: the suspended fiber `f` sees `res` as the outcome of its own transfer. */
    method TransferTo(f: nat, res: Outcome)
      requires Valid() && 0 < f < |fibers|
      modifies this, futuresToRun
      ensures Valid() && Snapshot() == Arrive(old(Snapshot()), f, res)
    {
      var x := fibers[f];
      match x.pc
      case Awaiting(_) =>
        current, raised := f, ErrorOf(res);
        fibers := fibers[f := x.(pc := Executing, cont := Tail(x.cont))];
        trees := WithLeaf(Logged(trees, x.tree, [In(res)]), x.tree, f);
      case Nesting(_) =>
        current, raised := f, ErrorOf(res);
        fibers := fibers[f := x.(pc := Executing)];
        trees := WithLeaf(trees, x.tree, f);
      case Parked =>
        SetPc(f, Terminated);
        TransferToRoot(res);
      case Executing =>
      case Terminated =>
    }

    /** The end of the block fiber_impl gave to the current fiber. */
    method EndBody(res: Outcome)
      requires Valid() && current != ROOT
      modifies this, futuresToRun
      ensures Valid() && Snapshot() == Machine.EndBody(old(Snapshot()), res)
    {
      var f := current;
      match fibers[f].parent
      case None =>
        trees := WithVerdict(trees, fibers[f].tree, res);
        SetPc(f, Terminated);
        TransferToRoot(res);
      case Some(p) =>
        var failed := CheckSuspended(p);
        match failed {
          case Some(e) =>
            SetPc(f, Terminated);
            TransferToRoot(Err(e));
          case None =>
            SetPc(f, Parked);
            TransferTo(p, res);
        }
    }

    method FiberImpl(body: seq<Op>)
      requires Valid()
      modifies this
      ensures Valid() && Snapshot() == Machine.FiberImpl(old(Snapshot()), body)
    {
      var c := |fibers|;
      if IsCurrentFiberRoot() {
        fibers := fibers + [Fiber(Executing, Lift(body), None, c)];
        rootPc := Scheduling;
        trees := trees[c := Tree(body, c, [], None)];
      } else {
        var x := fibers[current];
        fibers := fibers[current := x.(pc := Nesting(c), cont := Tail(x.cont))]
                  + [Fiber(Executing, Lift(body), Some(current), x.tree)];
        trees := WithLeaf(trees, x.tree, c);
      }
      current, raised := c, None;
    }

    // ---- tasks -----------------------------------------------------------------------------------

    method Spawn(kind: Kind) returns (failed: Option<Error>)
      requires Valid() && current != ROOT && (kind.Blocking? ==> kind.chan < |chans|)
      modifies this, futuresToRun
      ensures Valid() && (Snapshot(), failed) == Machine.Spawn(old(Snapshot()), kind)
    {
      hide GcCells.After, I32;
      var ok := futuresToRun.TryBorrowMut();
      if !ok {
        return Some(AlreadyBorrowed);
      }
      var task := Task(current, kind, if runtimeOpen then Pending else Crashed, false);
      futuresToRun.value := futuresToRun.value[spawned := task];
      spawned := spawned + 1;
      futuresToRun.DropRefMut();
      return None;
    }

    method Resume(cont: seq<Item>, raised': Option<Error>, ghost events: seq<Event>)
      requires Valid()
      modifies this`fibers, this`raised, this`trees
      ensures Valid() && Snapshot() == Continue(old(Snapshot()), cont, raised', events)
    {
      var x := fibers[current];
      fibers := fibers[current := x.(cont := cont)];
      raised := raised';
      trees := Logged(trees, x.tree, events);
    }

    method HookReturns(res: Outcome)
      requires Valid()
      modifies this`fibers, this`raised, this`trees
      ensures Valid() && Snapshot() == Machine.HookReturns(old(Snapshot()), res)
    {
      Resume(Tail(fibers[current].cont), ErrorOf(res), [In(res)]);
    }

    method SpawnAndTransfer(kind: Kind)
      requires Valid() && current != ROOT && (kind.Blocking? ==> kind.chan < |chans|)
      modifies this, futuresToRun
      ensures Valid() && Snapshot() == Machine.SpawnAndTransfer(old(Snapshot()), kind)
    {
      var task := spawned;
      var failed := Spawn(kind);
      if failed.Some? {
        HookReturns(Err(failed.value));
        return;
      }
      var suspended := CheckSuspended(ROOT);
      match suspended {
        case Some(e) => HookReturns(Err(e));
        case None =>
          SetPc(current, Awaiting(task));
          TransferToRoot(Ok(Nil));
      }
    }

    // ---- block and unblock -------------------------------------------------------------------------

    /** The current fiber's new sender goes into the map, over whatever was there. */
    method RegisterSender() returns (ch: nat)
      requires Valid() && current != ROOT
      modifies this`chans, blockers
      ensures Valid() && ch == |old(chans)| && ch < |chans|
      ensures var s := old(Snapshot());
        Snapshot() == s.(blockers := s.blockers[current := ch],
                         chans := DropSender(s, current) + [Chan(current, if s.borrowed || !runtimeOpen then Closed else Open)])
    {
      hide GcCells.After, I32;
      ch := |chans|;
      var f := current;
      var ok := blockers.TryBorrowMut();
      assert ok;   // no guard of the map outlives the call that made it
      // the receiver dies at once if no task will hold it
      var lost := futuresToRun.writeCount > 0 || !runtimeOpen;
      if f in blockers.value && chans[blockers.value[f]].state == Open {
        chans := SetChan(chans, blockers.value[f], Orphaned);
      }
      chans := chans + [Chan(f, if lost then Closed else Open)];
      blockers.value := blockers.value[f := ch];
      blockers.DropRefMut();
    }

    method Block(timed: bool)
      requires Valid() && current != ROOT
      modifies this, futuresToRun, blockers
      ensures Valid() && Snapshot() == BlockCurrent(old(Snapshot()), timed)
    {
      var ch := RegisterSender();
      SpawnAndTransfer(Blocking(ch, timed));
    }

    method Unblock(target: nat) returns (res: Outcome)
      requires Valid()
      modifies this`chans, blockers
      ensures Valid() && (Snapshot(), res) == UnblockFiber(old(Snapshot()), target)
    {
      hide GcCells.After, I32;
      if target >= |fibers| {
        return Err(NoConversion);
      }
      var failed := CheckSuspended(target);
      if failed.Some? {
        return Err(failed.value);
      }
      var ok := blockers.TryBorrowMut();
      assert ok;
      if target !in blockers.value {
        blockers.DropRefMut();
        return Ok(Nil);
      }
      var ch := blockers.value[target];
      blockers.value := blockers.value - {target};
      blockers.DropRefMut();
      if chans[ch].state == Open {
        chans := SetChan(chans, ch, Signalled);
        return Ok(Nil);
      }
      return Err(CouldNotUnblock);
    }

    /** One step of the current fiber. */
    method Step()
      requires Valid() && current != ROOT
      modifies this, futuresToRun, blockers
      ensures Valid() && Snapshot() == Advance(old(Snapshot()))
    {
      var k := fibers[current].cont;
      if raised.Some? {
        match Unwind(k) {
          case Some(h) => Resume(h, None, []);
          case None => EndBody(Err(raised.value));
        }
      } else if k == [] {
        EndBody(Ok(Nil));
      } else {
        match k[0] {
          case Catch(_) => Resume(k[1..], None, []);
          case Do(Emit(n)) => Resume(k[1..], None, [Out(n)]);
          case Do(Raise(e)) => Resume(k[1..], Some(e), []);
          case Do(Rescue(body, handler)) => Resume(Lift(body) + [Catch(handler)] + k[1..], None, []);
          case Do(Schedule(body)) => FiberImpl(body);
          case Do(Await) => SpawnAndTransfer(External);
          case Do(Block(timed)) => Block(timed);
          case Do(Unblock(target)) =>
            var res := Unblock(target);
            HookReturns(res);
          case Do(TimeoutAfter(body)) => TimeoutAfter(body);
        }
      }
    }

    method TimeoutAfter(body: seq<Op>)
      requires Valid() && current != ROOT && raised.None?
      requires fibers[current].cont != [] && fibers[current].cont[0] == Do(Scripts.Op.TimeoutAfter(body))
      modifies this, futuresToRun
      ensures Valid() && Snapshot() == Advance(old(Snapshot()))
    {
      var k := fibers[current].cont;
      var failed := Spawn(Timer);
      if failed.Some? {
        Resume(k[1..], failed, []);
      } else {
        timers := timers + 1;
        Resume(Lift(body) + k[1..], None, []);
      }
    }

    // ---- run ---------------------------------------------------------------------------------------

    /** A task is polled to completion; the clean-up of `block` removes the current fiber's entry. */
    method FinishTask(t: nat, res: Outcome)
      requires Valid() && t in futuresToRun.value
      modifies this`chans, futuresToRun`value, blockers
      ensures Valid() && Snapshot() == Finish(old(Snapshot()), t, res)
    {
      hide GcCells.After, I32;
      var task := futuresToRun.value[t];
      chans := DropReceiver(chans, task.kind);
      futuresToRun.value := futuresToRun.value[t := task.(phase := Finished(res))];
      if task.kind.Blocking? {
        var ok := blockers.TryBorrowMut();
        assert ok;
        if current in blockers.value && chans[blockers.value[current]].state == Open {
          chans := SetChan(chans, blockers.value[current], Orphaned);
        }
        blockers.value := blockers.value - {current};
        blockers.DropRefMut();
      }
    }

    method CrashTask(t: nat)
      requires Valid() && t in futuresToRun.value
      modifies this`chans, futuresToRun`value
      ensures Valid() && Snapshot() == Crash(old(Snapshot()), t)
    {
      var task := futuresToRun.value[t];
      chans := DropReceiver(chans, task.kind);
      futuresToRun.value := futuresToRun.value[t := task.(phase := Crashed)];
    }

    /** The body of timeout_after's future, after its sleep. */
    method PollTimer(t: nat)
      requires Valid() && t in futuresToRun.value
      modifies this, futuresToRun
      ensures Valid() && Snapshot() == Machine.FireTimer(old(Snapshot()), t)
    {
      var task := futuresToRun.value[t];
      var failed := CheckSuspended(task.owner);
      match failed {
        case Some(e) => futuresToRun.value := futuresToRun.value[t := task.(phase := Finished(Err(e)))];
        case None =>
          rootPc := Polling(t);
          TransferTo(task.owner, Err(TimedOut));
      }
    }

    /** check_interrupts wins: abort_all, let go of the set, return the error. */
    method Interrupted(e: Error)
      requires Valid() && futuresToRun.writers == 1
      modifies this, futuresToRun
      ensures Valid() && Snapshot() == Interrupt(old(Snapshot()), e)
    {
      hide GcCells.After, I32;
      futuresToRun.value := map t | t in futuresToRun.value :: Abort(futuresToRun.value[t]);
      futuresToRun.DropRefMut();
      ExitRun(Err(e));
    }

    /** join_next has yielded `t`: the borrow ends, then resume_if_alive, or back to waiting. */
    method Joined(t: nat)
      requires Valid() && futuresToRun.writers == 1
      requires t in futuresToRun.value && !futuresToRun.value[t].phase.Pending?
      modifies this, futuresToRun
      ensures Valid() && Snapshot() == Join(old(Snapshot()), t)
    {
      hide GcCells.After, I32;
      var task := futuresToRun.value[t];
      futuresToRun.value := futuresToRun.value - {t};
      futuresToRun.DropRefMut();
      match task.phase {
        case Crashed =>
          joined := joined[t := JoinFailed];
          BeginJoin();
        case Finished(res) =>
          if task.owner != ROOT && fibers[task.owner].pc.Terminated? {
            joined := joined[t := Dropped];
            BeginJoin();
          } else {
            var failed := CheckSuspended(task.owner);
            match failed {
              case Some(e) =>
                joined := joined[t := Dropped];
                ExitRun(Err(e));
              case None =>
                joined := joined[t := Delivered(res)];
                rootPc := Delivering;
                TransferTo(task.owner, res);
            }
          }
      }
    }

    method SetIsEmpty()
      requires Valid() && futuresToRun.writers == 1
      modifies this, futuresToRun
      ensures Valid() && Snapshot() == Machine.ExitRun(old(Snapshot()).(borrowed := false), Ok(Nil))
    {
      hide GcCells.After, I32;
      futuresToRun.DropRefMut();
      ExitRun(Ok(Nil));
    }

    predicate CanFinish(task: Task, res: Outcome)
      requires Valid() && (task.kind.Blocking? ==> task.kind.chan < |chans|)
      reads this, futuresToRun, blockers
      ensures CanFinish(task, res) == MayFinish(Snapshot(), task, res)
    {
      task.phase.Pending? && !task.aborted &&
      match task.kind
      case External => true
      case Timer => false
      case Blocking(ch, timed) =>
        match chans[ch].state
        case Signalled => res == Ok(True)
        case Orphaned => res == Err(SenderDropped)
        case Open => timed && res == Err(TimedOut)
        case Closed => false
    }

    /** Whether `a` can happen while `run` awaits join_next. */
    predicate CanHappen(a: Action)
      requires Valid() && rootPc == Joining
      reads this, futuresToRun, blockers
      ensures CanHappen(a) == (IsLoopEvent(a) && Enabled(Snapshot(), a))
    {
      var tasks := futuresToRun.value;
      match a
      case TaskFinishes(t, res) => t in tasks && CanFinish(tasks[t], res)
      case TaskPanics(t) => t in tasks && tasks[t].phase.Pending?
      case TaskCancelled(t) => t in tasks && tasks[t].phase.Pending? && tasks[t].aborted
      case TimerFires(t) => t in tasks && tasks[t].phase.Pending? && tasks[t].kind.Timer? && !tasks[t].aborted
      case Interrupted(_) => true
      case TaskJoined(t) => t in tasks && !tasks[t].phase.Pending?
      case _ => false
    }

    method Happens(a: Action)
      requires Valid() && rootPc == Joining && futuresToRun.writers == 1 && CanHappen(a)
      modifies this, futuresToRun, blockers
      ensures Valid() && Snapshot() == Next(old(Snapshot()), a)
    {
      match a
      case TaskFinishes(t, res) => FinishTask(t, res);
      case TaskPanics(t) => CrashTask(t);
      case TaskCancelled(t) => CrashTask(t);
      case TimerFires(t) => PollTimer(t);
      case Interrupted(e) => Interrupted(e);
      case TaskJoined(t) => Joined(t);
    }

    /** Fibers run, one after the other, until one of them transfers to root or ends its tree. */
    method RunUntilRoot()
      requires Valid() && Controlled(Snapshot())
      modifies this, futuresToRun, blockers
      ensures Valid() && Snapshot() == RunFibers(old(Snapshot()))
    {
      while current != ROOT
        invariant Valid() && Controlled(Snapshot())
        invariant RunFibers(Snapshot()) == RunFibers(old(Snapshot()))
        decreases Work(Snapshot())
      {
        StepControlled(Snapshot());
        StepWork(Snapshot());
        Step();
      }
    }

    /** One round of run's loop, and the fibers it wakes. */
    method Round(a: Action)
      requires Valid() && Controlled(Snapshot()) && rootPc == Joining && (CanHappen(a) || (a == SetEmpty && futuresToRun.value == map[]))
      modifies this, futuresToRun, blockers
      ensures Valid() && Enabled(old(Snapshot()), a) && Snapshot() == Loop.Round(old(Snapshot()), a)
    {
      NextControlled(Snapshot(), a);
      hide OneExecutes, TasksAccounted, Next, RunFibers;
      if a == SetEmpty {
        SetIsEmpty();
      } else {
        Happens(a);
      }
      RunUntilRoot();
    }

    /** run's loop, while the environment makes the actions of `env` happen, those it can, in order. */
    method AwaitTasks(env: seq<Action>)
      requires Valid() && Controlled(Snapshot()) && current == ROOT
      modifies this, futuresToRun, blockers
      ensures Valid() && Snapshot() == RunLoop(old(Snapshot()), env)
    {
      hide Controlled, Enabled, Loop.Round;
      var i := 0;
      assert env[0..] == env;
      while rootPc == Joining && i < |env| && (CanHappen(env[i]) || futuresToRun.value != map[])
        invariant Valid() && Controlled(Snapshot()) && current == ROOT && i <= |env|
        invariant RunLoop(Snapshot(), env[i..]) == RunLoop(old(Snapshot()), env)
        decreases |env| - i
      {
        RunLoopStep(Snapshot(), env, i);
        if CanHappen(env[i]) {
          Round(env[i]);
        }
        i := i + 1;
      }
      if rootPc == Joining && futuresToRun.value == map[] {
        if i < |env| { RunLoopStep(Snapshot(), env, i); }
        Round(SetEmpty);
      }
    }

    /** `run`: it returns, or is left waiting when `env` is used up. */
    method Run(env: seq<Action>) returns (returned: bool)
      requires Valid() && Controlled(Snapshot()) && rootPc == Idle
      modifies this, futuresToRun, blockers
      ensures Valid() && Snapshot() == RunCall(old(Snapshot()), false, env)
      ensures returned <==> rootPc == Idle
      ensures returned ==> futuresToRun.Free()
      ensures returned && ret == Some(Ok(Nil)) ==> futuresToRun.value == map[]
      ensures !old(runtimeOpen) ==>
        returned && ret == Some(Err(RuntimeClosed)) && futuresToRun.value == old(futuresToRun.value)
    {
      returned := RunFor(false, env);
    }

    /** `close`: run, and give up the runtime if run returned Ok. */
    method Close(env: seq<Action>) returns (returned: bool)
      requires Valid() && Controlled(Snapshot()) && rootPc == Idle
      modifies this, futuresToRun, blockers
      ensures Valid() && Snapshot() == RunCall(old(Snapshot()), true, env)
      ensures returned <==> rootPc == Idle
      ensures returned ==> futuresToRun.Free()
      ensures returned && ret == Some(Ok(Nil)) ==> futuresToRun.value == map[]
      ensures returned && old(runtimeOpen) ==> (runtimeOpen <==> ret != Some(Ok(Nil)))
      ensures !old(runtimeOpen) ==>
        returned && ret == Some(Err(RuntimeClosed)) && futuresToRun.value == old(futuresToRun.value)
    {
      ClosesExactly(Snapshot(), true, env);
      returned := RunFor(true, env);
    }

    /** `run`, called by the root program or by close. */
    method RunFor(purpose: bool, env: seq<Action>) returns (returned: bool)
      requires Valid() && Controlled(Snapshot()) && rootPc == Idle
      modifies this, futuresToRun, blockers
      ensures Valid() && Snapshot() == RunCall(old(Snapshot()), purpose, env)
      ensures returned <==> rootPc == Idle
      ensures returned ==> futuresToRun.Free()
      ensures returned && ret == Some(Ok(Nil)) ==> futuresToRun.value == map[]
      ensures !old(runtimeOpen) ==>
        returned && ret == Some(Err(RuntimeClosed)) && futuresToRun.value == old(futuresToRun.value)
    {
      CallLeaves(Snapshot(), purpose, env);
      NextControlled(Snapshot(), RootRun(purpose));
      if !runtimeOpen {
        ClosedRuntimeRefuses(Snapshot(), purpose, env);
        ExitRun(Err(RuntimeClosed));
        return true;
      }
      closing := purpose;
      BeginJoin();
      AwaitTasks(env);
      return rootPc == Idle;
    }
  }
}
