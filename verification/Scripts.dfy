/** What a scheduled block does, as far as the scheduler can see it, and what it means to run
    such a block sequentially.

    A block is a finite script. `Schedule(body)` is `Fiber.schedule { body }`, `Await` is any hook
    that hands a future to the scheduler, `Rescue(body, handler)` is `begin body rescue handler end`.
    `Denote` is the reference meaning: direct style, no fibers, no tasks, a nested `Schedule` is a
    plain call of its body. `FlatRun` is the same meaning for a half-executed block. */
module Scripts {

  datatype Option<+T> = None | Some(value: T)

  datatype Error =
    | User(code: int)
    | FiberNotAlive
    | FiberActive
    | NoConversion       // the argument of unblock is not a fiber
    | AlreadyBorrowed
    | TimedOut
    | SenderDropped
    | CouldNotUnblock
    | RuntimeClosed

  datatype Value = Nil | True | Num(n: int)

  datatype Outcome = Ok(value: Value) | Err(error: Error)

  function ErrorOf(res: Outcome): Option<Error> {
    if res.Err? then Some(res.error) else None
  }

  datatype Op =
    | Emit(n: int)
    | Raise(error: Error)
    | Await
    | Block(timed: bool)
    | Unblock(target: nat)
    | Schedule(body: seq<Op>)
    | Rescue(body: seq<Op>, handler: seq<Op>)
    | TimeoutAfter(body: seq<Op>)

  /** A visible event of a block: an effect, or the result of a call into the scheduler. */
  datatype Event = Out(n: int) | In(res: Outcome)

  datatype End = Done | Failed(error: Error) | Waiting

  /** The events of a block on given results, the results left over, and how it ends. */
  datatype Report = Report(events: seq<Event>, rest: seq<Outcome>, end: End)

  function Prepend(events: seq<Event>, r: Report): Report {
    r.(events := events + r.events)
  }

  function Inputs(log: seq<Event>): seq<Outcome> {
    if log == [] then []
    else if log[0].In? then [log[0].res] + Inputs(log[1..])
    else Inputs(log[1..])
  }

  function Outputs(log: seq<Event>): seq<int> {
    if log == [] then []
    else if log[0].Out? then [log[0].n] + Outputs(log[1..])
    else Outputs(log[1..])
  }

  /** The reference meaning of a block. */
  function Denote(ops: seq<Op>, ins: seq<Outcome>): Report
    decreases ops
  {
    if ops == [] then Report([], ins, Done)
    else
      var first := DenoteOp(ops[0], ins);
      if first.end.Done? then Prepend(first.events, Denote(ops[1..], first.rest)) else first
  }

  function DenoteOp(op: Op, ins: seq<Outcome>): Report
    decreases op
  {
    match op
    case Emit(n) => Report([Out(n)], ins, Done)
    case Raise(e) => Report([], ins, Failed(e))
    case Await | Block(_) | Unblock(_) =>
      if ins == [] then Report([], [], Waiting)
      else Report([In(ins[0])], ins[1..], if ins[0].Ok? then Done else Failed(ins[0].error))
    case Schedule(body) => Denote(body, ins)
    case TimeoutAfter(body) => Denote(body, ins)
    case Rescue(body, handler) =>
      var r := Denote(body, ins);
      if r.end.Failed? then Prepend(r.events, Denote(handler, r.rest)) else r
  }

  // ---- half-executed blocks -------------------------------------------------------------

  /** What is left to do: an operation, or the end of a protected region. */
  datatype Item = Do(op: Op) | Catch(handler: seq<Op>)

  function Lift(ops: seq<Op>): seq<Item> {
    seq(|ops|, i requires 0 <= i < |ops| => Do(ops[i]))
  }

  /** Where an exception is caught: the handler of the innermost open region. */
  function Unwind(k: seq<Item>): Option<seq<Item>> {
    if k == [] then None
    else if k[0].Catch? then Some(Lift(k[0].handler) + k[1..])
    else Unwind(k[1..])
  }

  predicate Suspends(i: Item) {
    i.Do? && (i.op.Await? || i.op.Block?)
  }

  // Sizes leave room for the tasks, fibers and exceptions an operation gives rise to.
  function Size(ops: seq<Op>): nat
    decreases ops
  {
    if ops == [] then 0 else OpSize(ops[0]) + Size(ops[1..])
  }

  function OpSize(op: Op): nat
    decreases op
  {
    match op
    case Emit(_) => 1
    case Raise(_) => 2
    case Await | Block(_) => 7
    case Unblock(_) => 2
    case Schedule(body) => Size(body) + 4
    case Rescue(body, handler) => Size(body) + Size(handler) + 2
    case TimeoutAfter(body) => Size(body) + 6
  }

  function ItemSize(i: Item): nat {
    match i
    case Do(op) => OpSize(op)
    case Catch(handler) => Size(handler) + 1
  }

  function ContSize(k: seq<Item>): nat {
    if k == [] then 0 else ItemSize(k[0]) + ContSize(k[1..])
  }

  lemma ContSizeConcat(a: seq<Item>, b: seq<Item>)
    ensures ContSize(a + b) == ContSize(a) + ContSize(b)
  {
    if a == [] {
      assert a + b == b;
    } else {
      assert (a + b)[1..] == a[1..] + b;
      ContSizeConcat(a[1..], b);
    }
  }

  lemma ContSizeLift(ops: seq<Op>)
    ensures ContSize(Lift(ops)) == Size(ops)
  {
    if ops != [] {
      assert Lift(ops)[1..] == Lift(ops[1..]);
      ContSizeLift(ops[1..]);
    }
  }

  lemma PushSize(ops: seq<Op>, k: seq<Item>)
    ensures ContSize(Lift(ops) + k) == Size(ops) + ContSize(k)
  {
    ContSizeConcat(Lift(ops), k);
    ContSizeLift(ops);
  }

  /** Opening a protected region or unwinding to its handler uses up size. */
  lemma ProtectSize(body: seq<Op>, handler: seq<Op>, k: seq<Item>)
    ensures ContSize(Lift(body) + [Catch(handler)] + k) == Size(body) + Size(handler) + 1 + ContSize(k)
  {
    assert Lift(body) + [Catch(handler)] + k == Lift(body) + ([Catch(handler)] + k);
    PushSize(body, [Catch(handler)] + k);
    ContSizeConcat([Catch(handler)], k);
    assert [Catch(handler)][1..] == [];
  }

  lemma UnwindSize(k: seq<Item>)
    ensures Unwind(k).Some? ==> ContSize(Unwind(k).value) < ContSize(k)
  {
    if k != [] {
      if k[0].Catch? {
        PushSize(k[0].handler, k[1..]);
      } else {
        UnwindSize(k[1..]);
      }
    }
  }

  lemma UnwindConcat(a: seq<Item>, b: seq<Item>)
    ensures Unwind(a + b) == if Unwind(a).Some? then Some(Unwind(a).value + b) else Unwind(b)
  {
    if a == [] {
      assert a + b == b;
    } else {
      assert (a + b)[1..] == a[1..] + b;
      if a[0].Catch? {
        assert Lift(a[0].handler) + (a[1..] + b) == (Lift(a[0].handler) + a[1..]) + b;
      } else {
        UnwindConcat(a[1..], b);
      }
    }
  }

  /** The sequential run of what is left of a block, with an exception possibly in flight. */
  function FlatRun(k: seq<Item>, raised: Option<Error>, ins: seq<Outcome>): Report
    decreases ContSize(k) + if raised.Some? then 1 else 0
  {
    if raised.Some? then
      UnwindSize(k);
      match Unwind(k)
      case Some(h) => FlatRun(h, None, ins)
      case None => Report([], ins, Failed(raised.value))
    else if k == [] then Report([], ins, Done)
    else
      var rest := k[1..];
      match k[0]
      case Catch(_) => FlatRun(rest, None, ins)
      case Do(Emit(n)) => Prepend([Out(n)], FlatRun(rest, None, ins))
      case Do(Raise(e)) => FlatRun(rest, Some(e), ins)
      case Do(Schedule(body)) => PushSize(body, rest); FlatRun(Lift(body) + rest, None, ins)
      case Do(TimeoutAfter(body)) => PushSize(body, rest); FlatRun(Lift(body) + rest, None, ins)
      case Do(Rescue(body, handler)) =>
        ProtectSize(body, handler, rest);
        FlatRun(Lift(body) + [Catch(handler)] + rest, None, ins)
      case Do(_) =>
        if ins == [] then Report([], [], Waiting)
        else Prepend([In(ins[0])], FlatRun(rest, ErrorOf(ins[0]), ins[1..]))
  }

  /** Runs `d` first and what is left, `k`, after it. */
  function Then(d: Report, k: seq<Item>): Report {
    match d.end
    case Done => Prepend(d.events, FlatRun(k, None, d.rest))
    case Failed(e) => Prepend(d.events, FlatRun(k, Some(e), d.rest))
    case Waiting => d
  }

  lemma PrependPrepend(a: seq<Event>, b: seq<Event>, r: Report)
    ensures Prepend(a, Prepend(b, r)) == Prepend(a + b, r)
  {
    assert a + (b + r.events) == (a + b) + r.events;
  }

  lemma PrependNothing(r: Report)
    ensures Prepend([], r) == r
  {
    assert [] + r.events == r.events;
  }

  /** The flat run of a block in front of `k` is the reference meaning of the block, then `k`. */
  lemma {:induction false} FlatRunIsDenote(ops: seq<Op>, k: seq<Item>, ins: seq<Outcome>)
    ensures FlatRun(Lift(ops) + k, None, ins) == Then(Denote(ops, ins), k)
    decreases ops, 1
  {
    if ops == [] {
      assert Lift(ops) + k == k;
      PrependNothing(FlatRun(k, None, ins));
    } else {
      var first, rest := DenoteOp(ops[0], ins), Lift(ops[1..]) + k;
      assert Lift(ops) + k == [Do(ops[0])] + rest;
      FlatOpIsDenote(ops[0], rest, ins);
      if first.end.Done? {
        FlatRunIsDenote(ops[1..], k, first.rest);
        ThenPrepend(first.events, Denote(ops[1..], first.rest), k);
      } else if first.end.Failed? {
        UnwindConcat(Lift(ops[1..]), k);
        UnwindLift(ops[1..]);
      }
    }
  }

  lemma {:induction false} FlatOpIsDenote(op: Op, k: seq<Item>, ins: seq<Outcome>)
    ensures FlatRun([Do(op)] + k, None, ins) == Then(DenoteOp(op, ins), k)
    decreases op, 0
  {
    var c := [Do(op)] + k;
    assert c[0] == Do(op) && c[1..] == k;
    match op
    case Emit(n) =>
    case Raise(e) => PrependNothing(FlatRun(k, Some(e), ins));
    case Await => 
    case Block(_) =>
    case Unblock(_) =>
    case Schedule(body) => FlatRunIsDenote(body, k, ins);
    case TimeoutAfter(body) => FlatRunIsDenote(body, k, ins);
    case Rescue(body, handler) =>
      var r, k1 := Denote(body, ins), [Catch(handler)] + k;
      assert Lift(body) + [Catch(handler)] + k == Lift(body) + k1;
      assert k1[1..] == k;
      FlatRunIsDenote(body, k1, ins);
      if r.end.Failed? {
        FlatRunIsDenote(handler, k, r.rest);
        ThenPrepend(r.events, Denote(handler, r.rest), k);
      }
  }

  lemma UnwindLift(ops: seq<Op>)
    ensures Unwind(Lift(ops)) == None
  {
    if ops != [] {
      assert Lift(ops)[1..] == Lift(ops[1..]);
      UnwindLift(ops[1..]);
    }
  }

  lemma ThenPrepend(events: seq<Event>, d: Report, k: seq<Item>)
    ensures Then(Prepend(events, d), k) == Prepend(events, Then(d, k))
  {
    match d.end
    case Done => PrependPrepend(events, d.events, FlatRun(k, None, d.rest));
    case Failed(e) => PrependPrepend(events, d.events, FlatRun(k, Some(e), d.rest));
    case Waiting =>
  }

  /** A whole block: the flat run and the reference meaning agree. */
  lemma WholeBlock(ops: seq<Op>, ins: seq<Outcome>)
    ensures FlatRun(Lift(ops), None, ins) == Denote(ops, ins)
  {
    FlatRunIsDenote(ops, [], ins);
    assert Lift(ops) + [] == Lift(ops);
    var d := Denote(ops, ins);
    assert d.events + [] == d.events;
  }

  // ---- a block under way ----------------------------------------------------------------

  /** A block that has produced `log` and has `k` left behaves from now on like the whole block
      fed with the results in `log`. */
  ghost predicate Tracks(script: seq<Op>, log: seq<Event>, k: seq<Item>, raised: Option<Error>) {
    forall more :: FlatRun(Lift(script), None, Inputs(log) + more) == Prepend(log, FlatRun(k, raised, more))
  }

  ghost predicate Leads(k: seq<Item>, raised: Option<Error>, events: seq<Event>, k': seq<Item>, raised': Option<Error>) {
    forall more :: FlatRun(k, raised, Inputs(events) + more) == Prepend(events, FlatRun(k', raised', more))
  }

  lemma InputsConcat(a: seq<Event>, b: seq<Event>)
    ensures Inputs(a + b) == Inputs(a) + Inputs(b)
  {
    if a == [] {
      assert a + b == b;
    } else {
      assert (a + b)[1..] == a[1..] + b;
      InputsConcat(a[1..], b);
    }
  }

  lemma TracksStart(script: seq<Op>)
    ensures Tracks(script, [], Lift(script), None)
  {
    forall more ensures FlatRun(Lift(script), None, Inputs([]) + more) == Prepend([], FlatRun(Lift(script), None, more)) {
      assert Inputs([]) + more == more;
      PrependNothing(FlatRun(Lift(script), None, more));
    }
  }

  lemma TracksLeads(script: seq<Op>, log: seq<Event>, k: seq<Item>, raised: Option<Error>,
                    events: seq<Event>, k': seq<Item>, raised': Option<Error>)
    requires Tracks(script, log, k, raised)
    requires Leads(k, raised, events, k', raised')
    ensures Tracks(script, log + events, k', raised')
  {
    hide FlatRun;
    forall more
      ensures FlatRun(Lift(script), None, Inputs(log + events) + more) == Prepend(log + events, FlatRun(k', raised', more))
    {
      InputsConcat(log, events);
      assert Inputs(log + events) + more == Inputs(log) + (Inputs(events) + more);
      PrependPrepend(log, events, FlatRun(k', raised', more));
    }
  }

  /** A tracked block that cannot go on by itself has produced exactly the reference's events. */
  lemma TracksReport(script: seq<Op>, log: seq<Event>, k: seq<Item>, raised: Option<Error>)
    requires Tracks(script, log, k, raised)
    ensures Denote(script, Inputs(log)) == Prepend(log, FlatRun(k, raised, []))
  {
    WholeBlock(script, Inputs(log));
    assert Inputs(log) + [] == Inputs(log);
  }

  // ---- single steps of a half-executed block, in front of anything ------------------------

  lemma LeadsQuietly(k: seq<Item>, raised: Option<Error>, k': seq<Item>, raised': Option<Error>)
    requires forall more :: FlatRun(k, raised, more) == FlatRun(k', raised', more)
    ensures Leads(k, raised, [], k', raised')
  {
    hide FlatRun;
    forall more ensures FlatRun(k, raised, Inputs([]) + more) == Prepend([], FlatRun(k', raised', more)) {
      assert Inputs([]) + more == more;
      PrependNothing(FlatRun(k', raised', more));
    }
  }

  lemma LeadsUnwind(k: seq<Item>, e: Error, up: seq<Item>)
    ensures Unwind(k).Some? ==> Leads(k + up, Some(e), [], Unwind(k).value + up, None)
    ensures Unwind(k).None? ==> Leads(k + up, Some(e), [], up, Some(e))
  {
    UnwindConcat(k, up);
    if Unwind(k).Some? {
      LeadsQuietly(k + up, Some(e), Unwind(k).value + up, None);
    } else {
      LeadsQuietly(k + up, Some(e), up, Some(e));
    }
  }

  lemma LeadsHook(k: seq<Item>, up: seq<Item>, res: Outcome)
    requires k != [] && k[0].Do? && (k[0].op.Await? || k[0].op.Block? || k[0].op.Unblock?)
    ensures Leads(k + up, None, [In(res)], k[1..] + up, ErrorOf(res))
  {
    assert (k + up)[1..] == k[1..] + up;
    assert Inputs([In(res)]) == [res];
    forall more ensures FlatRun(k + up, None, Inputs([In(res)]) + more) == Prepend([In(res)], FlatRun(k[1..] + up, ErrorOf(res), more)) {
      assert ([res] + more)[1..] == more;
    }
  }

  /** What the head of `k` turns `k` into, when it needs nothing from the scheduler. */
  function Unfold(k: seq<Item>): seq<Item>
    requires k != []
  {
    match k[0]
    case Do(Schedule(body)) => Lift(body) + k[1..]
    case Do(TimeoutAfter(body)) => Lift(body) + k[1..]
    case Do(Rescue(body, handler)) => Lift(body) + [Catch(handler)] + k[1..]
    case _ => k[1..]
  }

  function Raises(i: Item): Option<Error> {
    if i.Do? && i.op.Raise? then Some(i.op.error) else None
  }

  function Shows(i: Item): seq<Event> {
    if i.Do? && i.op.Emit? then [Out(i.op.n)] else []
  }

  lemma FlatRunUnfolds(k: seq<Item>, ins: seq<Outcome>)
    requires k != [] && !(k[0].Do? && (k[0].op.Await? || k[0].op.Block? || k[0].op.Unblock?))
    ensures FlatRun(k, None, ins) == Prepend(Shows(k[0]), FlatRun(Unfold(k), Raises(k[0]), ins))
  {
    PrependNothing(FlatRun(Unfold(k), Raises(k[0]), ins));
  }

  lemma UnfoldConcat(k: seq<Item>, up: seq<Item>)
    requires k != []
    ensures Unfold(k + up) == Unfold(k) + up
  {
    var rest := k[1..] + up;
    assert (k + up)[1..] == rest;
    match k[0]
    case Do(Schedule(body)) => assert Lift(body) + k[1..] + up == Lift(body) + rest;
    case Do(TimeoutAfter(body)) => assert Lift(body) + k[1..] + up == Lift(body) + rest;
    case Do(Rescue(body, handler)) =>
      assert Lift(body) + [Catch(handler)] + k[1..] + up == Lift(body) + [Catch(handler)] + rest;
    case _ =>
  }

  lemma LeadsUnfold(k: seq<Item>, up: seq<Item>)
    requires k != [] && !(k[0].Do? && (k[0].op.Await? || k[0].op.Block? || k[0].op.Unblock?))
    ensures Leads(k + up, None, Shows(k[0]), Unfold(k) + up, Raises(k[0]))
  {
    UnfoldConcat(k, up);
    hide FlatRun, Unfold, Raises;
    forall more
      ensures FlatRun(k + up, None, Inputs(Shows(k[0])) + more) == Prepend(Shows(k[0]), FlatRun(Unfold(k) + up, Raises(k[0]), more))
    {
      assert Inputs(Shows(k[0])) == [];
      assert [] + more == more;
      FlatRunUnfolds(k + up, more);
    }
  }

  /** A block that waits for a result, or has nothing left, or lets an exception out, stops there. */
  lemma Stops(k: seq<Item>, raised: Option<Error>)
    ensures raised.None? && k != [] && Suspends(k[0]) ==> FlatRun(k, raised, []) == Report([], [], Waiting)
    ensures raised.None? && k == [] ==> FlatRun(k, raised, []) == Report([], [], Done)
    ensures raised.Some? && Unwind(k).None? ==> FlatRun(k, raised, []) == Report([], [], Failed(raised.value))
  {
  }
}
