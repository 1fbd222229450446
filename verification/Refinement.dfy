/** Fibers, tasks and transfers implement plain sequential calls.

    In every run without timeout_after, a root-scheduled fiber together with all its nested
    descendants, however many fibers they are and however other trees interleave, behaves as its
    script does when `Fiber.schedule` inside it is an ordinary call: same events, same order, same
    end. */
module Refinement {
  import opened Scripts
  import opened Machine
  import opened Control
  import opened WaitChains

  /** What is left of a whole tree: what is left of a fiber, then of the fiber waiting for it, and so
      on up to the root-scheduled one. */
  function Rest(fs: seq<Fiber>, f: nat): seq<Item> {
    if f >= |fs| then []
    else if fs[f].parent.Some? && fs[f].parent.value < f then fs[f].cont + Rest(fs, fs[f].parent.value)
    else fs[f].cont
  }

  /** What is left above fiber `f`. */
  function Above(fs: seq<Fiber>, f: nat): seq<Item> {
    if f < |fs| && fs[f].parent.Some? && fs[f].parent.value < f then Rest(fs, fs[f].parent.value) else []
  }

  lemma RestSplits(fs: seq<Fiber>, f: nat)
    requires f < |fs|
    ensures Rest(fs, f) == fs[f].cont + Above(fs, f)
  {
  }

  function EndOf(res: Outcome): End {
    if res.Ok? then Done else Failed(res.error)
  }

  /** An exception in flight belongs to the tree of the current fiber. */
  function RaisedAt(leaf: nat, current: nat, raised: Option<Error>): Option<Error> {
    if leaf == current then raised else None
  }

  /** The script's sequential meaning on the results in `log` is `log`, ending as `res` says. */
  ghost predicate Means(script: seq<Op>, log: seq<Event>, res: Outcome) {
    Denote(script, Inputs(log)) == Report(log, [], EndOf(res))
  }

  ghost predicate TreeOk(fs: seq<Fiber>, current: nat, raised: Option<Error>, trees: map<nat, Tree>, t: nat)
    requires t in trees
  {
    var tree := trees[t];
    && 0 < t < |fs| && fs[t].parent.None? && fs[t].tree == t
    && 0 < tree.leaf < |fs| && fs[tree.leaf].tree == t
    && (tree.verdict.None? ==>
          && IsLeaf(fs[tree.leaf].pc) && Unfinished(fs[t].pc)
          && Tracks(tree.script, tree.log, Rest(fs, tree.leaf), RaisedAt(tree.leaf, current, raised)))
    && (tree.verdict.Some? ==>
          && fs[t].pc.Terminated? && Means(tree.script, tree.log, tree.verdict.value))
  }

  ghost predicate FiberOk(fs: seq<Fiber>, trees: map<nat, Tree>, f: nat)
    requires f < |fs|
  {
    var x := fs[f];
    && x.tree in trees
    && (IsLeaf(x.pc) ==> trees[x.tree].leaf == f && trees[x.tree].verdict.None?)
    && (x.pc.Awaiting? ==> x.cont != [] && Suspends(x.cont[0]))
  }

  ghost predicate FibersOk(fs: seq<Fiber>, trees: map<nat, Tree>) {
    forall f | 0 < f < |fs| :: FiberOk(fs, trees, f)
  }

  ghost predicate TreesOk(fs: seq<Fiber>, current: nat, raised: Option<Error>, trees: map<nat, Tree>) {
    forall t | t in trees :: TreeOk(fs, current, raised, trees, t)
  }

  ghost predicate Sequential(s: State) {
    FibersOk(s.fibers, s.trees) && TreesOk(s.fibers, s.current, s.raised, s.trees)
  }

  // ---- one tree changes, the others do not -------------------------------------------------

  /** Only fibers of tree `t` differ between `fs` and `gs`; fibers keep their place, new ones are of `t`. */
  ghost predicate OnlyTree(fs: seq<Fiber>, gs: seq<Fiber>, t: nat) {
    && |fs| <= |gs|
    && (forall g | 0 <= g < |fs| :: gs[g].parent == fs[g].parent && gs[g].tree == fs[g].tree)
    && (forall g | 0 < g < |fs| && fs[g].tree != t :: gs[g] == fs[g])
    && (forall g | |fs| <= g < |gs| :: gs[g].tree == t)
  }

  lemma RestOfOthers(fs: seq<Fiber>, gs: seq<Fiber>, t: nat, f: nat)
    requires OnlyTree(fs, gs, t) && Links(fs) && 0 < f < |fs| && fs[f].tree != t
    ensures Rest(gs, f) == Rest(fs, f)
  {
    ChildOf(fs, f);
    if fs[f].parent.Some? {
      RestOfOthers(fs, gs, t, fs[f].parent.value);
    }
  }

  /** Going up from `f`, only smaller fibers matter. */
  lemma RestBelow(fs: seq<Fiber>, gs: seq<Fiber>, f: nat)
    requires f < |fs| && f < |gs|
    requires forall g | 0 <= g <= f :: gs[g].cont == fs[g].cont && gs[g].parent == fs[g].parent
    ensures Rest(gs, f) == Rest(fs, f)
  {
  }

  /** The rest of the state is as it was when a step stays within tree `t`. */
  lemma StepWithinTree(s: State, r: State, t: nat)
    requires Links(s.fibers) && Sequential(s) && OnlyTree(s.fibers, r.fibers, t)
    requires t in r.trees && r.trees.Keys == s.trees.Keys + {t}
    requires forall u | u in s.trees && u != t :: r.trees[u] == s.trees[u]
    requires s.current == ROOT || (s.current < |s.fibers| && s.fibers[s.current].tree == t)
    requires r.current == ROOT || (r.current < |r.fibers| && r.fibers[r.current].tree == t)
    requires TreeOk(r.fibers, r.current, r.raised, r.trees, t)
    requires forall g | 0 < g < |r.fibers| ::
      g >= |s.fibers| || r.fibers[g] != s.fibers[g] || (t in s.trees && g == s.trees[t].leaf) ==> FiberOk(r.fibers, r.trees, g)
    ensures Sequential(r)
  {
    hide Tracks, Means;
    forall g | 0 < g < |r.fibers| ensures FiberOk(r.fibers, r.trees, g) {
      if g < |s.fibers| && r.fibers[g] == s.fibers[g] {
        assert FiberOk(s.fibers, s.trees, g);
      }
    }
    forall u | u in r.trees ensures TreeOk(r.fibers, r.current, r.raised, r.trees, u) {
      if u != t {
        assert TreeOk(s.fibers, s.current, s.raised, s.trees, u);
        RestOfOthers(s.fibers, r.fibers, t, s.trees[u].leaf);
      }
    }
  }

  // ---- every action keeps the refinement ---------------------------------------------------

  /** The current fiber is the leaf of its tree, and its tree is where `Tracks` says. */
  lemma CurrentTracks(s: State)
    requires Controlled(s) && Sequential(s) && s.current != ROOT
    ensures var f, t := s.current, s.fibers[s.current].tree;
      && t in s.trees && s.trees[t].leaf == f && s.trees[t].verdict.None? && s.fibers[f].pc.Executing?
      && 0 < t < |s.fibers| && s.fibers[t].parent.None? && s.fibers[t].tree == t && Unfinished(s.fibers[t].pc)
      && Tracks(s.trees[t].script, s.trees[t].log, s.fibers[f].cont + Above(s.fibers, f), s.raised)
  {
    hide Tracks, Means;
    assert FiberOk(s.fibers, s.trees, s.current);
    assert TreeOk(s.fibers, s.current, s.raised, s.trees, s.fibers[s.current].tree);
    RestSplits(s.fibers, s.current);
  }

  lemma RestOfLeaf(fs: seq<Fiber>, f: nat, x: Fiber)
    requires Links(fs) && 0 < f < |fs| && x.parent == fs[f].parent
    ensures Rest(fs[f := x], f) == x.cont + Above(fs, f)
  {
    ChildOf(fs, f);
    if x.parent.Some? {
      RestBelow(fs, fs[f := x], x.parent.value);
    }
    RestSplits(fs[f := x], f);
  }

  /** A leaf fiber moves on, becoming `x`, and its tree's log becomes `log`. */
  lemma LeafStep(s: State, r: State, f: nat, x: Fiber, log: seq<Event>)
    requires Links(s.fibers) && Sequential(s) && 0 < f < |s.fibers| && IsLeaf(s.fibers[f].pc)
    requires IsLeaf(x.pc) && x.parent == s.fibers[f].parent && x.tree == s.fibers[f].tree
    requires s.current == ROOT || s.current == f
    requires r.current == if x.pc.Executing? then f else ROOT
    requires x.pc.Awaiting? ==> r.raised.None? && x.cont != [] && Suspends(x.cont[0])
    requires r.fibers == s.fibers[f := x]
    requires x.tree in s.trees && r.trees == s.trees[x.tree := s.trees[x.tree].(log := log)]
    requires Tracks(s.trees[x.tree].script, log, x.cont + Above(s.fibers, f), r.raised)
    ensures Sequential(r)
  {
    LeafStepTree(s, r, f, x, log);
    assert FiberOk(s.fibers, s.trees, f);
    hide TreeOk, Links, Above, FibersOk, TreesOk, Tracks;
    StepWithinTree(s, r, x.tree);
  }

  lemma LeafStepTree(s: State, r: State, f: nat, x: Fiber, log: seq<Event>)
    requires Links(s.fibers) && Sequential(s) && 0 < f < |s.fibers| && IsLeaf(s.fibers[f].pc)
    requires IsLeaf(x.pc) && x.parent == s.fibers[f].parent && x.tree == s.fibers[f].tree
    requires s.current == ROOT || s.current == f
    requires r.current == if x.pc.Executing? then f else ROOT
    requires x.pc.Awaiting? ==> r.raised.None? && x.cont != [] && Suspends(x.cont[0])
    requires r.fibers == s.fibers[f := x]
    requires x.tree in s.trees && r.trees == s.trees[x.tree := s.trees[x.tree].(log := log)]
    requires Tracks(s.trees[x.tree].script, log, x.cont + Above(s.fibers, f), r.raised)
    ensures x.tree in r.trees && TreeOk(r.fibers, r.current, r.raised, r.trees, x.tree)
  {
    hide Tracks, Means;
    assert FiberOk(s.fibers, s.trees, f);
    assert TreeOk(s.fibers, s.current, s.raised, s.trees, x.tree);
    RestOfLeaf(s.fibers, f, x);
    hide Links, Rest, Above, FibersOk, TreesOk;
  }

  lemma ContinueSequential(s: State, cont: seq<Item>, raised: Option<Error>, events: seq<Event>)
    requires Controlled(s) && Links(s.fibers) && Sequential(s) && s.current != ROOT
    requires Leads(s.fibers[s.current].cont + Above(s.fibers, s.current), s.raised, events,
                   cont + Above(s.fibers, s.current), raised)
    ensures Sequential(Continue(s, cont, raised, events))
  {
    CurrentTracks(s);
    var f := s.current;
    var t, x, up := s.fibers[f].tree, s.fibers[f], Above(s.fibers, f);
    TracksLeads(s.trees[t].script, s.trees[t].log, x.cont + up, s.raised, events, cont + up, raised);
    hide Tracks, Means, Leads, Above, Links, FibersOk, TreesOk, OneExecutes, Partitioned, TimersCounted, ParentsInRange, TasksInRange, SendersInRange, BorrowMatches;
    LeafStep(s, Continue(s, cont, raised, events), f, x.(cont := cont), s.trees[t].log + events);
  }

  /** A nested schedule: the child's block goes in front of what its parent has left. */
  lemma NestTracks(s: State, body: seq<Op>)
    requires Controlled(s) && Links(s.fibers) && Sequential(s) && s.current != ROOT && s.raised.None?
    requires s.fibers[s.current].cont != [] && s.fibers[s.current].cont[0] == Do(Schedule(body))
    ensures var f, t, fs := s.current, s.fibers[s.current].tree, FiberImpl(s, body).fibers;
      t in s.trees && Tracks(s.trees[t].script, s.trees[t].log, Rest(fs, |s.fibers|), None)
  {
    CurrentTracks(s);
    var f, fs, c := s.current, FiberImpl(s, body).fibers, |s.fibers|;
    var t, k, up := s.fibers[f].tree, s.fibers[f].cont, Above(s.fibers, f);
    LeadsUnfold(k, up);
    assert Unfold(k) + up == Lift(body) + (k[1..] + up);
    TracksLeads(s.trees[t].script, s.trees[t].log, k + up, None, [], Unfold(k) + up, None);
    assert s.trees[t].log + [] == s.trees[t].log;
    hide Tracks, Means, Leads, Unfold, FibersOk, TreesOk, OneExecutes, Partitioned, TimersCounted, ParentsInRange, TasksInRange, SendersInRange, BorrowMatches;
    if s.fibers[f].parent.Some? {
      RestBelow(s.fibers, fs, s.fibers[f].parent.value);
    }
    RestSplits(fs, f);
    RestSplits(fs, c);
  }

  /** Fiber `f` hands the leaf of its tree down to a new child. */
  lemma LeafGoesDown(s: State, r: State, f: nat, child: Fiber)
    requires Links(s.fibers) && Sequential(s) && 0 < f < |s.fibers| && s.current == f && s.fibers[f].pc.Executing?
    requires var x, c, t := s.fibers[f], |s.fibers|, s.fibers[f].tree;
      && child.tree == t && child.pc.Executing? && t in s.trees && s.trees[t].leaf == f && s.trees[t].verdict.None?
      && r.fibers == s.fibers[f := x.(pc := Nesting(c), cont := Tail(x.cont))] + [child]
      && r.trees == s.trees[t := s.trees[t].(leaf := c)] && r.current == c
      && TreeOk(r.fibers, r.current, r.raised, r.trees, t)
    ensures Sequential(r)
  {
    hide TreeOk, FibersOk, TreesOk, Links, Tail;
    StepWithinTree(s, r, s.fibers[f].tree);
  }

  lemma NestSequential(s: State, body: seq<Op>)
    requires Controlled(s) && Links(s.fibers) && Sequential(s) && s.current != ROOT && s.raised.None?
    requires s.fibers[s.current].cont != [] && s.fibers[s.current].cont[0] == Do(Schedule(body))
    ensures Sequential(FiberImpl(s, body))
  {
    CurrentTracks(s);
    NestTracks(s, body);
    hide Sequential, Links, Tracks, Means, Rest, BorrowMatches, OneExecutes, TasksAccounted, Tail, Lift, Above,
         ParentsInRange, TasksInRange, SendersInRange;
    var f := s.current;
    LeafGoesDown(s, FiberImpl(s, body), f, Fiber(Executing, Lift(body), Some(f), s.fibers[f].tree));
  }

  /** A hook: the tree stands still until the result arrives. */
  lemma SuspendSequential(s: State, r: State, task: nat)
    requires Controlled(s) && Links(s.fibers) && Sequential(s) && s.current != ROOT && s.raised.None?
    requires s.fibers[s.current].cont != [] && Suspends(s.fibers[s.current].cont[0])
    requires r.fibers == s.fibers[s.current := s.fibers[s.current].(pc := Awaiting(task))]
    requires r.current == ROOT && r.raised.None? && r.trees == s.trees
    ensures Sequential(r)
  {
    CurrentTracks(s);
    var f, t := s.current, s.fibers[s.current].tree;
    assert s.trees == s.trees[t := s.trees[t].(log := s.trees[t].log)];
    hide Tracks, Means, Links, Above, FibersOk, TreesOk, OneExecutes, Partitioned, TimersCounted, ParentsInRange, TasksInRange, SendersInRange, BorrowMatches;
    LeafStep(s, r, f, s.fibers[f].(pc := Awaiting(task)), s.trees[t].log);
  }

  /** The end of a nested block: its parent goes on with what it had left, or with the exception. */
  lemma EndNestedTracks(s: State, res: Outcome)
    requires Controlled(s) && Chained(s) && Sequential(s) && s.current != ROOT && s.fibers[s.current].parent.Some?
    requires if res.Ok? then s.raised.None? && s.fibers[s.current].cont == []
             else s.raised == Some(res.error) && Unwind(s.fibers[s.current].cont).None?
    ensures var t, p := s.fibers[s.current].tree, s.fibers[s.current].parent.value;
      t in s.trees && Tracks(s.trees[t].script, s.trees[t].log, Rest(s.fibers, p), s.raised)
  {
    CurrentTracks(s);
    var f := s.current;
    ChildOf(s.fibers, f);
    var p, t, k := s.fibers[f].parent.value, s.fibers[f].tree, s.fibers[f].cont;
    var up := Rest(s.fibers, p);
    if res.Ok? {
      assert k + up == up;
    } else {
      LeadsUnwind(k, res.error, up);
      TracksLeads(s.trees[t].script, s.trees[t].log, k + up, s.raised, [], up, s.raised);
      assert s.trees[t].log + [] == s.trees[t].log;
    }
  }

  lemma EndNestedTree(s: State, res: Outcome)
    requires Controlled(s) && Chained(s) && Sequential(s) && s.current != ROOT && s.fibers[s.current].parent.Some?
    requires if res.Ok? then s.raised.None? && s.fibers[s.current].cont == []
             else s.raised == Some(res.error) && Unwind(s.fibers[s.current].cont).None?
    ensures var r, t := EndBody(s, res), s.fibers[s.current].tree;
      t in r.trees && TreeOk(r.fibers, r.current, r.raised, r.trees, t)
  {
    CurrentTracks(s);
    NestedBodyReturns(s, res);
    EndNestedTracks(s, res);
    var f, r := s.current, EndBody(s, res);
    hide EndBody;
    var p := s.fibers[f].parent.value;
    ChildOf(s.fibers, f);
    RestBelow(s.fibers, r.fibers, p);
    hide Tracks, Means, FibersOk, TreesOk, Links, Owners, Rest, Above, Unwind, ParentsInRange, TasksInRange, SendersInRange, BorrowMatches, OneExecutes, Partitioned, TimersCounted;
  }

  /** Fiber `f` hands the leaf of its tree back to its parent. */
  lemma LeafGoesUp(s: State, r: State, f: nat)
    requires Links(s.fibers) && Sequential(s) && 0 < f < |s.fibers| && s.current == f && s.fibers[f].parent.Some?
    requires var p, t := s.fibers[f].parent.value, s.fibers[f].tree;
      && 0 < p < f && s.fibers[p].tree == t && t in s.trees && s.trees[t].leaf == f && s.trees[t].verdict.None?
      && r.fibers == s.fibers[f := s.fibers[f].(pc := Parked)][p := s.fibers[p].(pc := Executing)]
      && r.trees == s.trees[t := s.trees[t].(leaf := p)] && r.current == p
      && TreeOk(r.fibers, r.current, r.raised, r.trees, t)
    ensures Sequential(r)
  {
    hide TreeOk, FibersOk, TreesOk, Links;
    StepWithinTree(s, r, s.fibers[f].tree);
  }

  lemma EndNestedSequential(s: State, res: Outcome)
    requires Controlled(s) && Chained(s) && Sequential(s) && s.current != ROOT && s.fibers[s.current].parent.Some?
    requires if res.Ok? then s.raised.None? && s.fibers[s.current].cont == []
             else s.raised == Some(res.error) && Unwind(s.fibers[s.current].cont).None?
    ensures Sequential(EndBody(s, res))
  {
    CurrentTracks(s);
    NestedBodyReturns(s, res);
    EndNestedTree(s, res);
    ChildOf(s.fibers, s.current);
    hide EndBody, TreeOk, Sequential, Links, Owners, Unwind, Tracks, BorrowMatches, OneExecutes, TasksAccounted, Above,
         CheckSuspended, ParentsInRange, TasksInRange, SendersInRange;
    LeafGoesUp(s, EndBody(s, res), s.current);
  }

  /** The end of a root-scheduled block is the end of its tree. */
  lemma EndTreeSequential(s: State, res: Outcome)
    requires Controlled(s) && Chained(s) && Sequential(s) && s.current != ROOT && s.fibers[s.current].parent.None?
    requires if res.Ok? then res == Ok(Nil) && s.raised.None? && s.fibers[s.current].cont == []
             else s.raised == Some(res.error) && Unwind(s.fibers[s.current].cont).None?
    ensures Sequential(EndBody(s, res))
  {
    CurrentTracks(s);
    EndTreeMeans(s, res);
    RootBodyEnds(s, res);
    ChildOf(s.fibers, s.current);
    hide EndBody, Sequential, Links, Owners, Unwind, Tracks, Means, BorrowMatches, OneExecutes, TasksAccounted, Above,
         ParentsInRange, TasksInRange, SendersInRange;
    TreeCloses(s, EndBody(s, res), s.current, res);
  }

  lemma TreeCloses(s: State, r: State, t: nat, res: Outcome)
    requires Links(s.fibers) && Sequential(s) && 0 < t < |s.fibers| && s.current == t
    requires s.fibers[t].tree == t && s.fibers[t].parent.None?
    requires t in s.trees && s.trees[t].leaf == t && Means(s.trees[t].script, s.trees[t].log, res)
    requires r.fibers == s.fibers[t := s.fibers[t].(pc := Terminated)] && r.current == ROOT
    requires r.trees == s.trees[t := s.trees[t].(verdict := Some(res))]
    ensures Sequential(r)
  {
    hide Links, FibersOk, TreesOk, Tracks, Means;
    StepWithinTree(s, r, t);
  }

  lemma EndTreeMeans(s: State, res: Outcome)
    requires Controlled(s) && Sequential(s) && s.current != ROOT && s.fibers[s.current].parent.None?
    requires if res.Ok? then res == Ok(Nil) && s.raised.None? && s.fibers[s.current].cont == []
             else s.raised == Some(res.error) && Unwind(s.fibers[s.current].cont).None?
    ensures var t := s.fibers[s.current].tree;
      t in s.trees && Means(s.trees[t].script, s.trees[t].log, res)
  {
    CurrentTracks(s);
    var f, t := s.current, s.fibers[s.current].tree;
    var k, log := s.fibers[f].cont, s.trees[t].log;
    assert k + Above(s.fibers, f) == k;
    TracksReport(s.trees[t].script, log, k, s.raised);
    Stops(k, s.raised);
    assert log + [] == log;
  }

  lemma NewTreeSequential(s: State, script: seq<Op>)
    requires Controlled(s) && Links(s.fibers) && Sequential(s) && s.current == ROOT
    ensures Sequential(FiberImpl(s, script))
  {
    TracksStart(script);
    var r, c := FiberImpl(s, script), |s.fibers|;
    assert c !in s.trees by {
      assert forall u | u in s.trees :: TreeOk(s.fibers, s.current, s.raised, s.trees, u);
    }
    hide Tracks, Means, FibersOk, TreesOk, OneExecutes, Partitioned, TimersCounted, Links;
    RestSplits(r.fibers, c);
    assert Lift(script) + [] == Lift(script);
    StepWithinTree(s, r, c);
  }

  /** A result arrives at the fiber that waits for it, and its tree goes on from there. */
  lemma DeliverSequential(s: State, t: nat, res: Outcome)
    requires Controlled(s) && Chained(s) && Sequential(s) && s.rootPc == Joining
    requires t in s.tasks && s.tasks[t].phase == Finished(res)
    ensures Sequential(Join(s, t))
  {
    JoinDelivers(s, t, res);
    var o, r := s.tasks[t].owner, Join(s, t);
    hide Join;
    var tree, k, up := s.fibers[o].tree, s.fibers[o].cont, Above(s.fibers, o);
    OwnerTracks(s, o);
    LeadsHook(k, up, res);
    TracksLeads(s.trees[tree].script, s.trees[tree].log, k + up, None, [In(res)], k[1..] + up, ErrorOf(res));
    assert r.trees == s.trees[tree := s.trees[tree].(log := s.trees[tree].log + [In(res)])];
    hide Tracks, Means, Leads, Above, Links, Owners, FibersOk, TreesOk, OneExecutes, Partitioned, TimersCounted, ParentsInRange, TasksInRange, SendersInRange, BorrowMatches;
    LeafStep(s, r, o, r.fibers[o], s.trees[tree].log + [In(res)]);
  }

  /** An awaiting fiber is the leaf of its tree, and its tree is where `Tracks` says. */
  lemma OwnerTracks(s: State, o: nat)
    requires Sequential(s) && s.current != o && 0 < o < |s.fibers| && s.fibers[o].pc.Awaiting?
    ensures var t, k := s.fibers[o].tree, s.fibers[o].cont;
      && t in s.trees && s.trees[t].leaf == o && k != [] && Suspends(k[0])
      && Tracks(s.trees[t].script, s.trees[t].log, k + Above(s.fibers, o), None)
  {
    hide Tracks, Means;
    assert FiberOk(s.fibers, s.trees, o);
    assert TreeOk(s.fibers, s.current, s.raised, s.trees, s.fibers[o].tree);
    RestSplits(s.fibers, o);
  }

  lemma UnblockSequential(s: State, target: nat)
    requires Controlled(s) && Links(s.fibers) && Sequential(s) && s.current != ROOT && s.raised.None?
    requires s.fibers[s.current].cont != [] && s.fibers[s.current].cont[0] == Do(Unblock(target))
    ensures var (s1, res) := UnblockFiber(s, target); Sequential(HookReturns(s1, res))
  {
    UnblockControlled(s, target);
    UnblockFrame(s, target);
    var (s1, res) := UnblockFiber(s, target);
    var k := s.fibers[s.current].cont;
    LeadsHook(k, Above(s.fibers, s.current), res);
    hide UnblockFiber, Continue, Leads, Above, Links, FibersOk, TreesOk, Controlled;
    ContinueSequential(s1, k[1..], ErrorOf(res), [In(res)]);
  }

  lemma UnfoldSequential(s: State)
    requires Controlled(s) && Links(s.fibers) && Sequential(s) && s.current != ROOT && s.raised.None?
    requires var k := s.fibers[s.current].cont;
      k != [] && (k[0].Catch? || k[0].op.Emit? || k[0].op.Raise? || k[0].op.Rescue?)
    ensures Sequential(Advance(s))
  {
    var k := s.fibers[s.current].cont;
    LeadsUnfold(k, Above(s.fibers, s.current));
    hide Continue, Leads, Above, Links, FibersOk, TreesOk, EndBody, FiberImpl, SpawnAndTransfer, BlockCurrent,
         UnblockFiber, Spawn, Unwind, OneExecutes, Partitioned, TimersCounted, ParentsInRange, TasksInRange, SendersInRange;
    ContinueSequential(s, Unfold(k), Raises(k[0]), Shows(k[0]));
  }

  lemma UnwindSequential(s: State)
    requires Controlled(s) && Links(s.fibers) && Sequential(s) && s.current != ROOT && s.raised.Some?
    requires Unwind(s.fibers[s.current].cont).Some?
    ensures Sequential(Continue(s, Unwind(s.fibers[s.current].cont).value, None, []))
  {
    var k := s.fibers[s.current].cont;
    LeadsUnwind(k, s.raised.value, Above(s.fibers, s.current));
    ContinueSequential(s, Unwind(k).value, None, []);
  }

  lemma StepSequential(s: State)
    requires Controlled(s) && Chained(s) && Sequential(s) && s.current != ROOT && Advance(s).timers == 0
    ensures Sequential(Advance(s))
  {
    assert WellFormed(s) && Links(s.fibers);
    var k := s.fibers[s.current].cont;
    hide Continue, EndBody, FiberImpl, SpawnAndTransfer, BlockCurrent, HookReturns, Sequential, Controlled, Chained,
         Unwind, Links, ParentsInRange, TasksInRange, SendersInRange;
    if s.raised.Some? {
      if Unwind(k).Some? { UnwindSequential(s); } else { EndBodySequential(s, Err(s.raised.value)); }
    } else if k == [] {
      EndBodySequential(s, Ok(Nil));
    } else {
      match k[0]
      case Do(Schedule(body)) => NestSequential(s, body);
      case Do(Await) => AwaitSequential(s);
      case Do(Block(timed)) => BlockSequential(s, timed);
      case Do(Unblock(target)) => UnblockSequential(s, target);
      case Do(TimeoutAfter(body)) => StartsTimer(s, body);
      case _ => UnfoldSequential(s);
    }
  }

  lemma AwaitSequential(s: State)
    requires Controlled(s) && Chained(s) && Sequential(s) && s.current != ROOT && s.raised.None?
    requires s.fibers[s.current].cont != [] && s.fibers[s.current].cont[0] == Do(Await)
    ensures Sequential(SpawnAndTransfer(s, External))
  {
    HookSuspends(s, External);
    hide SpawnAndTransfer, Sequential, Controlled, Links;
    SuspendSequential(s, SpawnAndTransfer(s, External), s.spawned);
  }

  lemma BlockSequential(s: State, timed: bool)
    requires Controlled(s) && Chained(s) && Sequential(s) && s.current != ROOT && s.raised.None?
    requires s.fibers[s.current].cont != [] && s.fibers[s.current].cont[0] == Do(Block(timed))
    ensures Sequential(BlockCurrent(s, timed))
  {
    BlockSuspends(s, timed);
    hide BlockCurrent, Sequential, Controlled, Links;
    SuspendSequential(s, BlockCurrent(s, timed), s.spawned);
  }

  lemma EndBodySequential(s: State, res: Outcome)
    requires Controlled(s) && Chained(s) && Sequential(s) && s.current != ROOT
    requires if res.Ok? then res == Ok(Nil) && s.raised.None? && s.fibers[s.current].cont == []
             else s.raised == Some(res.error) && Unwind(s.fibers[s.current].cont).None?
    ensures Sequential(EndBody(s, res))
  {
    hide EndBody, Sequential, Chained;
    if s.fibers[s.current].parent.None? {
      EndTreeSequential(s, res);
    } else {
      EndNestedSequential(s, res);
    }
  }

  lemma SameTreesSequential(s: State, r: State)
    requires Sequential(s) && r.fibers == s.fibers && r.current == s.current && r.raised == s.raised && r.trees == s.trees
    ensures Sequential(r)
  {
  }

  lemma EnvironmentSequential(s: State, a: Action)
    requires WellFormed(s) && Sequential(s) && Enabled(s, a) && IsEnvironment(a)
    ensures Sequential(Next(s, a))
  {
    EnvironmentFrame(s, a);
    hide Next, Enabled, Sequential, WellFormed;
    SameTreesSequential(s, Next(s, a));
  }

  lemma NextSequential(s: State, a: Action)
    requires Controlled(s) && Chained(s) && Sequential(s) && Enabled(s, a) && Next(s, a).timers == 0
    ensures Sequential(Next(s, a))
  {
    assert !a.TimerFires?;
    assert WellFormed(s);
    hide Advance, FiberImpl, UnblockFiber, Join, FireTimer, Finish, Crash, Interrupt, Sequential,
         Links, Owners, TasksAccounted, OneExecutes, ParentsInRange, TasksInRange, SendersInRange;
    match a
    case RootSchedule(script) => NewTreeSequential(s, script);
    case Step => StepSequential(s);
    case TaskJoined(t) =>
      if s.tasks[t].phase.Crashed? {
        JoinStrands(s, t);
        SameTreesSequential(s, Next(s, a));
      } else {
        DeliverSequential(s, t, s.tasks[t].phase.res);
      }
    case RootUnblock(target) => UnblockFrame(s, target); SameTreesSequential(s, Next(s, a));
    case RootRun(closing) => SameTreesSequential(s, Next(s, a));
    case SetEmpty => SameTreesSequential(s, Next(s, a));
    case _ => EnvironmentSequential(s, a);
  }

  lemma {:induction false} RunsSequential(s: State, actions: seq<Action>, s': State)
    requires Controlled(s) && Chained(s) && Sequential(s) && Runs(s, actions, s') && s'.timers == 0
    ensures Sequential(s')
    decreases |actions|
  {
    hide Next, OneExecutes, BorrowMatches, Partitioned, TimersCounted, Links, Owners, FibersOk, TreesOk;
    if actions != [] {
      var next := Next(s, actions[0]);
      NextControlled(s, actions[0]);
      TimersOnlyGrow(next, actions[1..], s');
      NextChained(s, actions[0]);
      NextSequential(s, actions[0]);
      RunsSequential(next, actions[1..], s');
    }
  }

  lemma ReachableSequential(s: State)
    requires Reachable(s) && s.timers == 0
    ensures Controlled(s) && Chained(s) && Sequential(s)
  {
    ReachableChained(s);
    InitChained();
    assert Sequential(Init());
    hide Init, Controlled, Chained, Sequential;
    var actions :| Runs(Init(), actions, s);
    RunsSequential(Init(), actions, s);
  }

  // ---- the theorem -------------------------------------------------------------------------

  /** In every reachable state and for every root-scheduled script: the events so far are a prefix of
      the events of the script's sequential meaning on the results received so far; they are all of
      them unless a fiber of that tree is running this moment; and the tree has ended, with a value or
      with an error, exactly when the sequential meaning has, and waits exactly when it waits. */
  lemma TreesRunSequentially(s: State, t: nat)
    requires Reachable(s) && s.timers == 0 && t in s.trees
    ensures var tree := s.trees[t];
      var meaning := Denote(tree.script, Inputs(tree.log));
      && tree.log <= meaning.events
      && (tree.leaf != s.current || tree.verdict.Some? ==> tree.log == meaning.events)
      && (tree.verdict.Some? ==> meaning.end == EndOf(tree.verdict.value))
      && (tree.verdict.None? && tree.leaf != s.current ==> meaning.end == Waiting)
  {
    ReachableSequential(s);
    assert TreeOk(s.fibers, s.current, s.raised, s.trees, t);
    var tree := s.trees[t];
    if tree.verdict.None? {
      var k, raised := Rest(s.fibers, tree.leaf), RaisedAt(tree.leaf, s.current, s.raised);
      TracksReport(tree.script, tree.log, k, raised);
      assert FiberOk(s.fibers, s.trees, tree.leaf);
      if tree.leaf != s.current {
        RestSplits(s.fibers, tree.leaf);
        Stops(k, raised);
      }
    }
  }
}
