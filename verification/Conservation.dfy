/** Where the tasks are, over whole runs. Except where it says so, timers are allowed. */
module Conservation {
  import opened Scripts
  import opened Machine
  import opened Control
  import opened WaitChains
  import opened Refinement
  import opened Strands

  function Ids(n: nat): (ids: set<nat>)
    ensures |ids| == n && forall i: nat :: i in ids <==> i < n
  {
    if n == 0 then {} else Ids(n - 1) + {n - 1}
  }

  function DeliveredTasks(s: State): set<nat> {
    set t | t in s.joined && s.joined[t].Delivered?
  }

  function DroppedTasks(s: State): set<nat> {
    set t | t in s.joined && s.joined[t].Dropped?
  }

  function FailedTasks(s: State): set<nat> {
    set t | t in s.joined && s.joined[t].JoinFailed?
  }

  /** Tasks are conserved, across every exit of `run`: each one spawned is in the set, or was
      delivered, or was dropped for a dead fiber, or failed to join, and is counted once. */
  lemma TasksAreConserved(s: State)
    requires Reachable(s)
    ensures s.spawned == |s.tasks| + |DeliveredTasks(s)| + |DroppedTasks(s)| + |FailedTasks(s)|
  {
    ReachableControlled(s);
    PartitionSizes(s.tasks, s.joined, s.spawned);
    FatesPartition(s);
  }

  lemma PartitionSizes(tasks: map<nat, Task>, joined: map<nat, Fate>, spawned: nat)
    requires Partitioned(tasks, joined, spawned)
    ensures spawned == |tasks| + |joined|
  {
    assert Ids(spawned) == tasks.Keys + joined.Keys && tasks.Keys !! joined.Keys;
    assert |tasks| == |tasks.Keys| && |joined| == |joined.Keys|;
  }

  lemma FatesPartition(s: State)
    ensures |s.joined| == |DeliveredTasks(s)| + |DroppedTasks(s)| + |FailedTasks(s)|
  {
    var delivered, dropped, failed := DeliveredTasks(s), DroppedTasks(s), FailedTasks(s);
    assert s.joined.Keys == (delivered + dropped) + failed;
    assert delivered !! dropped && (delivered + dropped) !! failed;
    assert |s.joined| == |s.joined.Keys|;
  }

  /** Root-scheduled trees that have not ended and are not running this moment. */
  function WaitingTrees(s: State): set<nat> {
    set t | t in s.trees && s.trees[t].verdict.None? && s.trees[t].leaf != s.current
  }

  lemma {:induction false} InjectiveSize(m: map<nat, nat>)
    requires forall a, b | a in m && b in m && m[a] == m[b] :: a == b
    ensures |m.Values| == |m|
  {
    if m == map[] {
      assert m.Values == {};
    } else {
      var a :| a in m;
      var rest := m - {a};
      assert m == rest[a := m[a]];
      assert m.Values == rest.Values + {m[a]};
      assert m[a] !in rest.Values;
      assert m.Keys == rest.Keys + {a};
      InjectiveSize(rest);
    }
  }

  /** The tasks some fiber still awaits: those in the set, and those that failed to join. */
  function AwaitedTasks(s: State): set<nat> {
    s.tasks.Keys + FailedTasks(s)
  }

  /** What the trees wait for, exactly: as many trees wait as there are tasks in the set and failed joins
      together. Each waiting tree waits for one task, and each failed join costs one tree for good. */
  lemma WaitingTreesExactly(s: State)
    requires Reachable(s) && s.timers == 0
    ensures |WaitingTrees(s)| == |s.tasks| + |FailedTasks(s)|
  {
    ReachableControlled(s);
    AwaitedSize(s);
    var treeOf: map<nat, nat> := map t | t in AwaitedTasks(s) :: TreeAwaiting(s, t);
    assert treeOf.Keys == AwaitedTasks(s) && |treeOf| == |treeOf.Keys|;
    hide Controlled, TreeAwaiting, Reachable, WaitingTrees, AwaitedTasks, FailedTasks;
    forall t | t in treeOf ensures treeOf[t] in WaitingTrees(s) {
      AwaiterHasTree(s, t);
    }
    forall u | u in WaitingTrees(s) ensures u in treeOf.Values {
      var t := TreeAwaits(s, u);
      assert treeOf[t] == u;
    }
    forall a, b | a in treeOf && b in treeOf && treeOf[a] == treeOf[b] ensures a == b {
      AwaiterHasTree(s, a);
      AwaiterHasTree(s, b);
    }
    ImageSize(treeOf, WaitingTrees(s));
  }

  /** So with no failed join the set holds one task for each waiting tree: no tree waits for nothing, none
      waits for two things. */
  lemma OneTaskPerWaitingTree(s: State)
    requires Reachable(s) && s.timers == 0
    requires forall t | t in s.joined :: s.joined[t] != JoinFailed
    ensures |s.tasks| == |WaitingTrees(s)|
  {
    WaitingTreesExactly(s);
    assert FailedTasks(s) == {};
  }

  lemma ImageSize(m: map<nat, nat>, image: set<nat>)
    requires forall a, b | a in m && b in m && m[a] == m[b] :: a == b
    requires (forall a | a in m :: m[a] in image) && (forall b | b in image :: b in m.Values)
    ensures |m| == |image|
  {
    assert m.Values == image;
    InjectiveSize(m);
  }

  lemma AwaitedSize(s: State)
    requires Controlled(s)
    ensures |AwaitedTasks(s)| == |s.tasks| + |FailedTasks(s)|
  {
    assert s.tasks.Keys !! FailedTasks(s) && |s.tasks| == |s.tasks.Keys|;
  }

  /** The tree of the fiber that awaits task `t`. */
  ghost function TreeAwaiting(s: State, t: nat): nat {
    if f: nat :| Awaits(s.fibers, f, t) then s.fibers[f].tree else 0
  }

  lemma HasAwaiter(s: State, t: nat)
    requires Reachable(s) && s.timers == 0 && t in AwaitedTasks(s)
    ensures exists f :: Awaits(s.fibers, f, t)
  {
    ReachableStranding(s);
    if t in s.tasks {
      assert Awaits(s.fibers, s.tasks[t].owner, t);
    }
  }

  lemma AwaiterHasTree(s: State, t: nat)
    requires Reachable(s) && s.timers == 0 && t in AwaitedTasks(s)
    ensures var u := TreeAwaiting(s, t);
      u in WaitingTrees(s) && s.trees[u].leaf < |s.fibers| && s.fibers[s.trees[u].leaf].pc == Awaiting(t)
  {
    HasAwaiter(s, t);
    ReachableSequential(s);
    hide Tracks, Means, Links, Partitioned, TimersCounted, AwaitedTasks;
    var f: nat :| Awaits(s.fibers, f, t) && TreeAwaiting(s, t) == s.fibers[f].tree;
    assert FiberOk(s.fibers, s.trees, f);
  }

  lemma TreeAwaits(s: State, u: nat) returns (t: nat)
    requires Reachable(s) && s.timers == 0 && u in WaitingTrees(s)
    ensures t in AwaitedTasks(s) && TreeAwaiting(s, t) == u
  {
    ReachableSequential(s);
    ReachableStranding(s);
    hide Tracks, Means, Links, Partitioned, TimersCounted;
    assert TreeOk(s.fibers, s.current, s.raised, s.trees, u);
    var leaf := s.trees[u].leaf;
    t := s.fibers[leaf].pc.task;
    assert Awaited(s.fibers, s.tasks, s.joined, leaf);
    assert Awaits(s.fibers, leaf, t);
  }

  /** The borrow of the task set, exactly: held while `run` awaits join_next, and otherwise only while
      a timer of timeout_after is being polled. So it is free after every exit of `run`, and a fiber's
      spawn fails if and only if the fiber was woken by such a timer. */
  lemma BorrowExactly(s: State, kind: Kind)
    requires Reachable(s)
    ensures s.rootPc == Idle ==> !s.borrowed
    ensures s.timers == 0 ==> (s.borrowed <==> s.rootPc == Joining)
    ensures s.current != ROOT && !kind.Blocking? ==>
      (Spawn(s, kind).1 == Some(AlreadyBorrowed) <==> s.rootPc.Polling?)
      && (s.timers == 0 ==> Spawn(s, kind).1 == None)
  {
    ReachableControlled(s);
  }
}
