/** GcCell: borrow rules counted at run time in two 32-bit counters.

    One Ruby thread at a time runs this code, so a load followed by an add is one step. The counters
    are AtomicI32: adding wraps around, and the model keeps that. */
module GcCells {

  const WORD := 0x1_0000_0000
  const HALF := 0x8000_0000

  /** Two's complement wrap-around of a 32-bit counter. */
  function I32(n: int): (r: int)
    ensures -HALF <= r < HALF
    ensures -HALF <= n < HALF ==> r == n
  {
    (n + HALF) % WORD - HALF
  }

  lemma I32Add(n: int, d: int)
    ensures I32(I32(n) + d) == I32(n + d)
  {
    var q := (n + HALF) / WORD;
    assert I32(n) == n - q * WORD;
    assert (I32(n) + d + HALF) == (n + d + HALF) - q * WORD;
    ModShift(n + d + HALF, q);
  }

  lemma ModShift(x: int, q: int)
    ensures (x - q * WORD) % WORD == x % WORD
  {
    var k, r := x / WORD, x % WORD;
    assert x - q * WORD == (k - q) * WORD + r;
  }

  class GcCell<T> {
    var value: T
    var readCount: int
    var writeCount: int
    ghost var readers: nat   // live GcRef guards
    ghost var writers: nat   // live GcRefMut guards

    ghost predicate Counts()
      reads this
    {
      readCount == I32(readers) && writeCount == I32(writers)
    }

    /** No guard is alive. */
    ghost predicate Free()
      reads this
    {
      Counts() && readers == 0 && writers == 0
    }

    constructor (value: T)
      ensures Free() && this.value == value
    {
      this.value := value;
      readCount, writeCount := 0, 0;
      readers, writers := 0, 0;
    }

    ghost function AsCell(): Cell
      reads this
    {
      Cell(readCount, writeCount, readers, writers)
    }

    method TryBorrow() returns (ok: bool)
      requires Counts()
      modifies `readCount, `readers
      ensures Counts() && ok == Granted(old(AsCell()), BorrowRead) && AsCell() == After(old(AsCell()), BorrowRead)
      ensures readers == old(readers) + (if ok then 1 else 0)
      ensures old(writers) < HALF ==> (ok <==> writers == 0)
    {
      OpKeepsCount(AsCell(), BorrowRead);
      if writeCount > 0 {
        ok := false;
      } else {
        readCount := I32(readCount + 1);
        readers := readers + 1;
        ok := true;
      }
    }

    method TryBorrowMut() returns (ok: bool)
      requires Counts()
      modifies `writeCount, `writers
      ensures Counts() && ok == Granted(old(AsCell()), BorrowWrite) && AsCell() == After(old(AsCell()), BorrowWrite)
      ensures writers == old(writers) + (if ok then 1 else 0)
      ensures readers < HALF && old(writers) < HALF ==> (ok <==> readers == 0 && old(writers) == 0)
    {
      OpKeepsCount(AsCell(), BorrowWrite);
      if readCount > 0 || writeCount > 0 {
        ok := false;
      } else {
        writeCount := I32(writeCount + 1);
        writers := writers + 1;
        ok := true;
      }
    }

    /** A GcRef goes out of scope. */
    method DropRef()
      requires Counts() && readers > 0
      modifies `readCount, `readers
      ensures Counts() && AsCell() == After(old(AsCell()), DropReader) && readers == old(readers) - 1
    {
      OpKeepsCount(AsCell(), DropReader);
      readCount := I32(readCount - 1);
      readers := readers - 1;
    }

    /** A GcRefMut goes out of scope. */
    method DropRefMut()
      requires Counts() && writers > 0
      modifies `writeCount, `writers
      ensures Counts() && AsCell() == After(old(AsCell()), DropWriter) && writers == old(writers) - 1
    {
      OpKeepsCount(AsCell(), DropWriter);
      writeCount := I32(writeCount - 1);
      writers := writers - 1;
    }
  }

  // ---- whole histories of one cell --------------------------------------------------------------

  datatype CellOp = BorrowRead | BorrowWrite | DropReader | DropWriter

  /** The two counters, and the guards alive. */
  datatype Cell = Cell(readCount: int, writeCount: int, readers: nat, writers: nat)

  const Fresh := Cell(0, 0, 0, 0)

  /** Whether the code grants the operation; a guard can be dropped when one is alive. */
  predicate Granted(c: Cell, op: CellOp) {
    match op
    case BorrowRead => c.writeCount <= 0
    case BorrowWrite => c.readCount <= 0 && c.writeCount <= 0
    case DropReader => c.readers > 0
    case DropWriter => c.writers > 0
  }

  function After(c: Cell, op: CellOp): Cell {
    if !Granted(c, op) then c
    else
      match op
      case BorrowRead => c.(readCount := I32(c.readCount + 1), readers := c.readers + 1)
      case BorrowWrite => c.(writeCount := I32(c.writeCount + 1), writers := c.writers + 1)
      case DropReader => c.(readCount := I32(c.readCount - 1), readers := c.readers - 1)
      case DropWriter => c.(writeCount := I32(c.writeCount - 1), writers := c.writers - 1)
  }

  function AfterAll(ops: seq<CellOp>): Cell {
    if ops == [] then Fresh else After(AfterAll(ops[..|ops| - 1]), ops[|ops| - 1])
  }

  /** The rule the cell is there to enforce: one writer and nobody else, or any number of readers. */
  ghost predicate Allowed(c: Cell, op: CellOp) {
    match op
    case BorrowRead => c.writers == 0
    case BorrowWrite => c.readers == 0 && c.writers == 0
    case DropReader => c.readers > 0
    case DropWriter => c.writers > 0
  }

  ghost predicate Exclusive(c: Cell) {
    c.writers <= 1 && (c.writers == 1 ==> c.readers == 0)
  }

  ghost predicate Counted(c: Cell) {
    c.readCount == I32(c.readers) && c.writeCount == I32(c.writers)
  }

  lemma OpKeepsCount(c: Cell, op: CellOp)
    requires Counted(c)
    ensures Counted(After(c, op))
  {
    match op
    case BorrowRead => I32Add(c.readers, 1);
    case BorrowWrite => I32Add(c.writers, 1);
    case DropReader => I32Add(c.readers, -1);
    case DropWriter => I32Add(c.writers, -1);
  }

  /** Counters always equal the guards alive, modulo 2^32; with no guard alive the cell is fresh. */
  lemma {:induction false} CountersCountGuards(ops: seq<CellOp>)
    ensures var c := AfterAll(ops);
      && c.readCount == I32(c.readers) && c.writeCount == I32(c.writers)
      && (c.readers == 0 && c.writers == 0 ==> c == Fresh)
  {
    assert I32(0) == 0;
    hide I32, After;
    if ops != [] {
      CountersCountGuards(ops[..|ops| - 1]);
      OpKeepsCount(AfterAll(ops[..|ops| - 1]), ops[|ops| - 1]);
    }
  }

  /** At every moment of the history fewer than 2^31 readers are alive. */
  ghost predicate FewReaders(ops: seq<CellOp>) {
    forall n | 0 <= n <= |ops| :: AfterAll(ops[..n]).readers < HALF
  }

  /** The cell refines the single-writer/many-readers rule on every history of borrows and drops, in
      any order, in which fewer than 2^31 readers are alive at once: the rule is never broken, and a
      borrow is granted exactly when the rule allows it. */
  lemma {:induction false} CellRefinesRule(ops: seq<CellOp>, op: CellOp)
    requires FewReaders(ops)
    ensures Exclusive(AfterAll(ops))
    ensures Granted(AfterAll(ops), op) <==> Allowed(AfterAll(ops), op)
  {
    CountersCountGuards(ops);
    if ops != [] {
      var n := |ops| - 1;
      FewReadersBefore(ops, n);
      CellRefinesRule(ops[..n], ops[n]);
      assert ops[..|ops|] == ops;
      assert AfterAll(ops[..|ops|]).readers < HALF;
    }
  }

  /** All along the history, an operation is granted exactly when the rule allows it. */
  ghost predicate FollowsRule(ops: seq<CellOp>) {
    forall n, op | 0 <= n <= |ops| :: Granted(AfterAll(ops[..n]), op) <==> Allowed(AfterAll(ops[..n]), op)
  }

  lemma FewReadersBefore(ops: seq<CellOp>, n: nat)
    requires FewReaders(ops) && n <= |ops|
    ensures FewReaders(ops[..n])
  {
    hide AfterAll;
    forall m | 0 <= m <= n ensures AfterAll(ops[..n][..m]).readers < HALF {
      assert ops[..n][..m] == ops[..m];
    }
  }

  lemma RuleBefore(ops: seq<CellOp>, n: nat)
    requires FollowsRule(ops) && n <= |ops|
    ensures FollowsRule(ops[..n])
  {
    hide AfterAll, Granted, Allowed;
    forall m, op | 0 <= m <= n ensures Granted(AfterAll(ops[..n][..m]), op) <==> Allowed(AfterAll(ops[..n][..m]), op) {
      assert ops[..n][..m] == ops[..m];
    }
  }

  lemma FewAtFirst()
    ensures FewReaders([])
  {
    assert AfterAll([]) == Fresh;
  }

  /** The operation that brings in reader number 2^31 turns the read count negative, and the next writer
      is let in. */
  lemma TooManyReaders(ops: seq<CellOp>)
    requires ops != [] && FewReaders(ops[..|ops| - 1]) && !FewReaders(ops)
    ensures !FollowsRule(ops)
  {
    var n := |ops| - 1;
    var before, c := AfterAll(ops[..n]), AfterAll(ops);
    assert ops[..|ops|] == ops;
    assert c.readers >= HALF by {
      assert forall m | 0 <= m <= n :: ops[..n][..m] == ops[..m];
    }
    assert ops[..n][..n] == ops[..n];
    CellRefinesRule(ops[..n], ops[n]);
    CountersCountGuards(ops);
    assert c.readers == HALF && c.writers == 0;
    assert Granted(AfterAll(ops[..|ops|]), BorrowWrite) && !Allowed(AfterAll(ops[..|ops|]), BorrowWrite);
  }

  /** The bound is the exact one: a history follows the rule all along if and only if it never has 2^31
      readers alive at once. */
  lemma {:induction false} RuleExactly(ops: seq<CellOp>)
    ensures FollowsRule(ops) <==> FewReaders(ops)
  {
    FewAtFirst();
    hide Granted, Allowed, AfterAll;
    if FewReaders(ops) {
      forall n, op | 0 <= n <= |ops| ensures Granted(AfterAll(ops[..n]), op) <==> Allowed(AfterAll(ops[..n]), op) {
        FewReadersBefore(ops, n);
        CellRefinesRule(ops[..n], op);
      }
    } else {
      var n := |ops| - 1;
      RuleExactly(ops[..n]);
      if FewReaders(ops[..n]) {
        TooManyReaders(ops);
      } else {
        if FollowsRule(ops) { RuleBefore(ops, n); }
      }
    }
  }

  function Reads(n: nat): seq<CellOp> {
    if n == 0 then [] else Reads(n - 1) + [BorrowRead]
  }

  lemma {:induction false} ManyReads(n: nat)
    ensures AfterAll(Reads(n)) == Cell(I32(n), 0, n, 0)
  {
    assert I32(0) == 0;
    hide I32;
    if n > 0 {
      ManyReads(n - 1);
      I32Add(n - 1, 1);
      assert Reads(n)[..|Reads(n)| - 1] == Reads(n - 1);
    }
  }

  /** With n readers alive a writer is wrongly let in if and only if n has wrapped the counter to zero or
      below, as 2^31 readers do. */
  lemma WriterAmongReaders(n: nat)
    ensures AfterAll(Reads(n)).readers == n
    ensures Granted(AfterAll(Reads(n)), BorrowWrite) <==> I32(n) <= 0
    ensures n == HALF ==> Granted(AfterAll(Reads(n)), BorrowWrite) && !Allowed(AfterAll(Reads(n)), BorrowWrite)
  {
    ManyReads(n);
  }
}
