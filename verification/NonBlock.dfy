/** NonBlockGuard: set O_NONBLOCK on a descriptor while an operation runs, restore the flags after.

    Every guard saves the flags it found and writes them all back, so what several guards on one
    descriptor do together depends on the order in which they are dropped. */
module NonBlock {

  type Flags = set<nat>

  const O_NONBLOCK: nat := 0x800

  /** `known`: the bits OFlag names. `settable`: the bits F_SETFL changes; the kernel ignores others. */
  datatype Platform = Platform(known: Flags, settable: Flags)

  ghost predicate Supported(p: Platform) {
    O_NONBLOCK in p.known && O_NONBLOCK in p.settable
  }

  function SetFl(p: Platform, flags: Flags, arg: Flags): Flags {
    (flags - p.settable) + (arg * p.settable)
  }

  /** An open file description: its flags. */
  class Description {
    var flags: Flags

    constructor (flags: Flags)
      ensures this.flags == flags
    {
      this.flags := flags;
    }
  }

  class NonBlockGuard {
    const platform: Platform
    const fd: Description
    const oldFlags: Flags

    constructor (platform: Platform, fd: Description)
      modifies fd
      ensures this.platform == platform && this.fd == fd
      ensures oldFlags == old(fd.flags) * platform.known
      ensures fd.flags == Created(platform, Fd(old(fd.flags), [])).flags
    {
      var oldFlags := fd.flags * platform.known;
      var newFlags := oldFlags + {O_NONBLOCK};
      this.platform := platform;
      this.fd := fd;
      this.oldFlags := oldFlags;
      new;
      fd.flags := SetFl(platform, fd.flags, newFlags);
    }

    method Drop()
      modifies fd
      ensures fd.flags == Dropped(platform, Fd(old(fd.flags), [oldFlags]), 0).flags
    {
      fd.flags := SetFl(platform, fd.flags, oldFlags);
    }
  }

  // ---- any interleaving of guards on one descriptor -------------------------------------------------

  /** The flags, and what each live guard saved, oldest guard first. */
  datatype Fd = Fd(flags: Flags, guards: seq<Flags>)

  function Created(p: Platform, fd: Fd): Fd {
    var saved := fd.flags * p.known;
    Fd(SetFl(p, fd.flags, saved + {O_NONBLOCK}), fd.guards + [saved])
  }

  function Dropped(p: Platform, fd: Fd, i: nat): Fd
    requires i < |fd.guards|
  {
    Fd(SetFl(p, fd.flags, fd.guards[i]), fd.guards[..i] + fd.guards[i + 1..])
  }

  datatype Op = Create | Drop(i: nat)

  predicate Valid(fd: Fd, op: Op) {
    op.Drop? ==> op.i < |fd.guards|
  }

  function After(p: Platform, fd: Fd, op: Op): Fd
    requires Valid(fd, op)
  {
    match op
    case Create => Created(p, fd)
    case Drop(i) => Dropped(p, fd, i)
  }

  /** `last` is reached from `fd` by these operations. */
  ghost predicate Reaches(p: Platform, fd: Fd, ops: seq<Op>, last: Fd)
    decreases |ops|
  {
    if ops == [] then fd == last
    else Valid(fd, ops[0]) && Reaches(p, After(p, fd, ops[0]), ops[1..], last)
  }

  /** The two sets agree on every known bit except O_NONBLOCK. */
  ghost predicate SameOthers(p: Platform, a: Flags, b: Flags) {
    forall bit | bit in p.known && bit != O_NONBLOCK :: bit in a <==> bit in b
  }

  ghost predicate AllSameOthers(p: Platform, fd: Fd, original: Flags) {
    SameOthers(p, fd.flags, original) && forall i | 0 <= i < |fd.guards| :: SameOthers(p, fd.guards[i], original)
  }

  /** Whatever the interleaving of creations and drops, known bits other than O_NONBLOCK never change. */
  lemma {:induction false} OtherBitsNeverChange(p: Platform, fd: Fd, ops: seq<Op>, last: Fd, original: Flags)
    requires Reaches(p, fd, ops, last) && AllSameOthers(p, fd, original)
    ensures AllSameOthers(p, last, original)
    decreases |ops|
  {
    hide AllSameOthers, Created, Dropped;
    if ops != [] {
      match ops[0] {
        case Create => CreateKeepsOthers(p, fd, original);
        case Drop(i) => DropKeepsOthers(p, fd, i, original);
      }
      OtherBitsNeverChange(p, After(p, fd, ops[0]), ops[1..], last, original);
    }
  }

  lemma CreateKeepsOthers(p: Platform, fd: Fd, original: Flags)
    requires AllSameOthers(p, fd, original)
    ensures AllSameOthers(p, Created(p, fd), original)
  {
  }

  lemma DropKeepsOthers(p: Platform, fd: Fd, i: nat, original: Flags)
    requires AllSameOthers(p, fd, original) && i < |fd.guards|
    ensures AllSameOthers(p, Dropped(p, fd, i), original)
  {
    var r := Dropped(p, fd, i);
    assert SameOthers(p, r.flags, original);
    forall k | 0 <= k < |r.guards| ensures SameOthers(p, r.guards[k], original) {
      assert r.guards[k] == fd.guards[if k < i then k else k + 1];
    }
  }

  /** Every drop drops the youngest guard. */
  ghost predicate LastInFirstOut(p: Platform, fd: Fd, ops: seq<Op>)
    decreases |ops|
  {
    ops != [] ==>
      && Valid(fd, ops[0])
      && (ops[0].Drop? ==> ops[0].i == |fd.guards| - 1)
      && LastInFirstOut(p, After(p, fd, ops[0]), ops[1..])
  }

  /** What nesting keeps: the oldest guard knows the original O_NONBLOCK, younger ones found it set. */
  ghost predicate Nested(fd: Fd, original: Flags) {
    && (fd.guards == [] ==> (O_NONBLOCK in fd.flags <==> O_NONBLOCK in original))
    && (fd.guards != [] ==> O_NONBLOCK in fd.flags && (O_NONBLOCK in fd.guards[0] <==> O_NONBLOCK in original))
    && (forall i | 0 < i < |fd.guards| :: O_NONBLOCK in fd.guards[i])
  }

  lemma SetFlBit(p: Platform, flags: Flags, arg: Flags)
    requires Supported(p)
    ensures O_NONBLOCK in SetFl(p, flags, arg) <==> O_NONBLOCK in arg
  {
  }

  lemma CreateNests(p: Platform, fd: Fd, original: Flags)
    requires Supported(p) && Nested(fd, original)
    ensures Nested(Created(p, fd), original)
  {
    var saved := fd.flags * p.known;
    SetFlBit(p, fd.flags, saved + {O_NONBLOCK});
    hide SetFl;
  }

  lemma DropNests(p: Platform, fd: Fd, original: Flags)
    requires Supported(p) && Nested(fd, original) && fd.guards != []
    ensures Nested(Dropped(p, fd, |fd.guards| - 1), original)
  {
    var last := |fd.guards| - 1;
    SetFlBit(p, fd.flags, fd.guards[last]);
    var r := Dropped(p, fd, last);
    assert r.guards == fd.guards[..last];
    hide SetFl, Dropped;
  }

  lemma {:induction false} NestingIsKept(p: Platform, fd: Fd, ops: seq<Op>, last: Fd, original: Flags)
    requires Supported(p) && Reaches(p, fd, ops, last) && LastInFirstOut(p, fd, ops) && Nested(fd, original)
    ensures Nested(last, original)
    decreases |ops|
  {
    hide Nested, Created, Dropped;
    if ops != [] {
      if fd.guards == [] || ops[0].Create? {
        CreateNests(p, fd, original);
      } else {
        DropNests(p, fd, original);
      }
      NestingIsKept(p, After(p, fd, ops[0]), ops[1..], last, original);
    }
  }

  /** Guards dropped in reverse order of creation: O_NONBLOCK stays set while any is alive, and when
      none is, every known flag is what it was. */
  lemma NestedGuardsRestore(p: Platform, original: Flags, ops: seq<Op>, last: Fd)
    requires Supported(p) && Reaches(p, Fd(original, []), ops, last) && LastInFirstOut(p, Fd(original, []), ops)
    ensures last.guards != [] ==> O_NONBLOCK in last.flags
    ensures last.guards == [] ==> last.flags * p.known == original * p.known
  {
    NestingIsKept(p, Fd(original, []), ops, last, original);
    OtherBitsNeverChange(p, Fd(original, []), ops, last, original);
  }

  // ---- drops in another order ------------------------------------------------------------------------

  ghost predicate NonBlockingWhileAlive(fd: Fd) {
    fd.guards != [] ==> O_NONBLOCK in fd.flags
  }

  /** O_NONBLOCK is set in every state of the run in which a guard is alive. */
  ghost predicate AlwaysNonBlocking(p: Platform, fd: Fd, ops: seq<Op>)
    decreases |ops|
  {
    && NonBlockingWhileAlive(fd)
    && (ops != [] && Valid(fd, ops[0]) ==> AlwaysNonBlocking(p, After(p, fd, ops[0]), ops[1..]))
  }

  /** A guard that found O_NONBLOCK clear is dropped only when no other is alive. */
  ghost predicate OpenerGoesLast(p: Platform, fd: Fd, ops: seq<Op>)
    decreases |ops|
  {
    ops != [] && Valid(fd, ops[0]) ==>
      && (ops[0].Drop? ==> O_NONBLOCK in fd.guards[ops[0].i] || |fd.guards| == 1)
      && OpenerGoesLast(p, After(p, fd, ops[0]), ops[1..])
  }

  /** For any order of drops: O_NONBLOCK holds whenever a guard is alive if and only if no guard that
      found it clear is dropped before another live guard. */
  lemma {:induction false} NonBlockingExactly(p: Platform, fd: Fd, ops: seq<Op>)
    requires Supported(p) && NonBlockingWhileAlive(fd)
    ensures AlwaysNonBlocking(p, fd, ops) <==> OpenerGoesLast(p, fd, ops)
    decreases |ops|
  {
    if ops != [] && Valid(fd, ops[0]) {
      var next := After(p, fd, ops[0]);
      StepNonBlocking(p, fd, ops[0]);
      hide After, NonBlockingWhileAlive;
      if NonBlockingWhileAlive(next) {
        NonBlockingExactly(p, next, ops[1..]);
      }
    }
  }

  lemma StepNonBlocking(p: Platform, fd: Fd, op: Op)
    requires Supported(p) && Valid(fd, op)
    ensures NonBlockingWhileAlive(After(p, fd, op)) <==> (op.Drop? ==> O_NONBLOCK in fd.guards[op.i] || |fd.guards| == 1)
  {
    var saved := fd.flags * p.known;
    SetFlBit(p, fd.flags, saved + {O_NONBLOCK});
    if op.Drop? {
      SetFlBit(p, fd.flags, fd.guards[op.i]);
      assert |After(p, fd, op).guards| == |fd.guards| - 1;
    }
    hide SetFl;
  }

  /** What every caller wants of O_NONBLOCK: set while a guard is alive, as it originally was when none is. */
  ghost predicate Right(fd: Fd, original: Flags) {
    if fd.guards == [] then O_NONBLOCK in fd.flags <==> O_NONBLOCK in original else O_NONBLOCK in fd.flags
  }

  ghost predicate AlwaysRight(p: Platform, fd: Fd, ops: seq<Op>, original: Flags)
    decreases |ops|
  {
    && Right(fd, original)
    && (ops != [] && Valid(fd, ops[0]) ==> AlwaysRight(p, After(p, fd, ops[0]), ops[1..], original))
  }

  ghost predicate HasOpener(guards: seq<Flags>) {
    exists i :: 0 <= i < |guards| && O_NONBLOCK !in guards[i]
  }

  /** While guards are alive, one of them found O_NONBLOCK clear just if it was so originally. */
  ghost predicate OpenerKnown(fd: Fd, original: Flags) {
    Right(fd, original) && (fd.guards != [] ==> (HasOpener(fd.guards) <==> O_NONBLOCK !in original))
  }

  lemma StepKeepsOpener(p: Platform, fd: Fd, op: Op, original: Flags)
    requires Supported(p) && Valid(fd, op) && OpenerKnown(fd, original)
    requires op.Drop? ==> O_NONBLOCK in fd.guards[op.i] || |fd.guards| == 1
    ensures OpenerKnown(After(p, fd, op), original)
  {
    var saved, r := fd.flags * p.known, After(p, fd, op);
    SetFlBit(p, fd.flags, saved + {O_NONBLOCK});
    hide SetFl;
    match op
    case Create =>
      assert r.guards[|fd.guards|] == saved;
      assert forall k | 0 <= k < |fd.guards| :: r.guards[k] == fd.guards[k];
    case Drop(i) =>
      SetFlBit(p, fd.flags, fd.guards[i]);
      DropKeepsOpener(fd.guards, i);
  }

  lemma DropKeepsOpener(guards: seq<Flags>, i: nat)
    requires i < |guards| && (O_NONBLOCK in guards[i] || |guards| == 1)
    ensures var rest := guards[..i] + guards[i + 1..];
      if |guards| == 1 then rest == [] else HasOpener(rest) <==> HasOpener(guards)
    ensures |guards| == 1 ==> (HasOpener(guards) <==> O_NONBLOCK !in guards[i])
  {
    var rest := guards[..i] + guards[i + 1..];
    forall k | 0 <= k < |guards| && k != i ensures guards[k] in rest {
      assert guards[k] == rest[if k < i then k else k - 1];
    }
  }

  /** For any order of drops, exactly: O_NONBLOCK is set whenever a guard is alive and back to what it
      was whenever none is, if and only if no guard that found it clear is dropped before another live
      guard. */
  lemma {:induction false} RightExactly(p: Platform, fd: Fd, ops: seq<Op>, original: Flags)
    requires Supported(p) && OpenerKnown(fd, original)
    ensures AlwaysRight(p, fd, ops, original) <==> OpenerGoesLast(p, fd, ops)
    decreases |ops|
  {
    if ops != [] && Valid(fd, ops[0]) {
      var next := After(p, fd, ops[0]);
      StepNonBlocking(p, fd, ops[0]);
      if ops[0].Drop? && O_NONBLOCK !in fd.guards[ops[0].i] && |fd.guards| != 1 {
        assert !Right(next, original);
      } else {
        StepKeepsOpener(p, fd, ops[0], original);
        hide After;
        RightExactly(p, next, ops[1..], original);
      }
    }
  }

  /** Two overlapping operations that end in the order they began leave the descriptor non-blocking for
      good, and for a while let the second one block. */
  lemma OverlapIsNotRestored(p: Platform, original: Flags)
    requires Supported(p) && O_NONBLOCK !in original
    ensures var both := Created(p, Created(p, Fd(original, [])));
      var one := Dropped(p, both, 0);
      && one.guards != [] && O_NONBLOCK !in one.flags
      && Dropped(p, one, 0).guards == [] && O_NONBLOCK in Dropped(p, one, 0).flags
  {
    var first := Created(p, Fd(original, []));
    assert first.guards == [original * p.known];
    var both := Created(p, first);
    assert both.guards == [original * p.known, first.flags * p.known];
    var one := Dropped(p, both, 0);
    assert one.guards == [first.flags * p.known];
  }
}
