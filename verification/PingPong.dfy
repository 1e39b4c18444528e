/** ping_pong_buffers.c: a pool of equal slots handed round between a producer and a
    consumer. A slot pointer is the byte offset of the slot in the pool. */
module PingPong {
  import opened Common
  import opened NrfQueue

  /** Line 23: the pool is addressed as rows of `cols` bytes, and row i*itemSize*cols is taken. */
  function SlotOffset(i: nat, itemSize: nat, cols: nat): nat {
    i * itemSize * cols * cols
  }

  function Offsets(rows: nat, itemSize: nat, cols: nat): (s: seq<nat>)
    ensures |s| == rows && forall i :: 0 <= i < rows ==> s[i] == SlotOffset(i, itemSize, cols)
  {
    seq(rows, i requires 0 <= i < rows => SlotOffset(i, itemSize, cols))
  }

  lemma OffsetsAppend(rows: nat, itemSize: nat, cols: nat)
    ensures Offsets(rows + 1, itemSize, cols) == Offsets(rows, itemSize, cols) + [SlotOffset(rows, itemSize, cols)]
  {
  }

  /** The i-th slot lies inside a pool of rows * cols items. */
  predicate InBounds(i: nat, rows: nat, itemSize: nat, cols: nat) {
    SlotOffset(i, itemSize, cols) + cols * itemSize <= rows * cols * itemSize
  }

  /** The slot offsets are right exactly for one column, or when there is only one row. */
  lemma LayoutExact(rows: nat, itemSize: nat, cols: nat)
    requires rows > 0 && itemSize > 0 && cols > 0
    ensures (forall i: nat :: i < rows ==> InBounds(i, rows, itemSize, cols)) <==> cols == 1 || rows == 1
  {
    if cols == 1 || rows == 1 {
      forall i: nat | i < rows
        ensures InBounds(i, rows, itemSize, cols)
      {
        if cols == 1 {
          ScaleNat(i + 1, rows, itemSize);
          assert (i + 1) * itemSize == i * itemSize + itemSize;
        }
      }
    } else {
      var k := rows - 1;
      assert !InBounds(k, rows, itemSize, cols) by {
        LastSlotOutside(k, itemSize, cols);
      }
    }
  }

  lemma ScaleNat(a: nat, b: nat, n: nat)
    requires a <= b
    ensures a * n <= b * n
  {
  }

  /** With more than one column the last slot starts past its row. */
  lemma LastSlotOutside(k: nat, itemSize: nat, cols: nat)
    requires k > 0 && itemSize > 0 && cols > 1
    ensures k * itemSize * cols * cols + cols * itemSize > (k + 1) * cols * itemSize
  {
    var x := k * itemSize * cols;
    assert x >= 1 by {
      ScaleNat(1, k, itemSize);
      ScaleNat(1, k * itemSize, cols);
    }
    assert x * cols > x by {
      ScaleNat(2, cols, x);
    }
    assert (k + 1) * cols * itemSize == x + cols * itemSize by {
      assert (k + 1) * cols == k * cols + cols;
      assert k * cols * itemSize == k * itemSize * cols;
    }
  }

  /** One column: the slots tile the pool; every byte of it belongs to exactly one slot. */
  lemma SlotsTile(rows: nat, itemSize: nat, at: nat)
    requires itemSize > 0 && at < rows * itemSize
    ensures at / itemSize < rows
    ensures forall i: nat :: i < rows ==>
              (SlotOffset(i, itemSize, 1) <= at < SlotOffset(i, itemSize, 1) + itemSize <==> i == at / itemSize)
  {
    var q := at / itemSize;
    assert at == q * itemSize + at % itemSize;
    if q >= rows {
      ScaleNat(rows, q, itemSize);
    }
    forall i: nat | i < rows
      ensures SlotOffset(i, itemSize, 1) <= at < SlotOffset(i, itemSize, 1) + itemSize <==> i == q
    {
      if i < q {
        ScaleNat(i + 1, q, itemSize);
        assert (i + 1) * itemSize == i * itemSize + itemSize;
      } else if i > q {
        ScaleNat(q + 1, i, itemSize);
        assert (q + 1) * itemSize == q * itemSize + itemSize;
      }
    }
  }

  class Buffers {
    const freeBuffers: Queue<nat>
    const inUseBuffers: Queue<nat>
    const itemSize: nat
    const rows: nat
    const cols: nat

    ghost function Repr(): set<object> {
      freeBuffers.Repr() + inUseBuffers.Repr()
    }

    ghost predicate Valid()
      reads this, Repr()
    {
      && freeBuffers.Valid() && inUseBuffers.Valid()
      && freeBuffers.Repr() !! inUseBuffers.Repr()
      && this !in Repr()
      && freeBuffers.size == rows && inUseBuffers.size == rows
    }

    ghost function Free(): seq<nat>
      requires Valid()
      reads this, Repr()
    {
      freeBuffers.Contents()
    }

    ghost function InUse(): seq<nat>
      requires Valid()
      reads this, Repr()
    {
      inUseBuffers.Contents()
    }

    /** PP_BUFFERS_init with both queues and the pool present. */
    constructor (itemSize: nat, rows: nat, cols: nat)
      ensures Valid() && this.itemSize == itemSize && this.rows == rows && this.cols == cols
      ensures Free() == Offsets(rows, itemSize, cols) && InUse() == []
      ensures fresh(Repr())
    {
      this.itemSize, this.rows, this.cols := itemSize, rows, cols;
      freeBuffers := new Queue<nat>(rows);
      inUseBuffers := new Queue<nat>(rows);
      new;
      var ok := Reset();
    }

    /** PP_BUFFERS_reset */
    method Reset() returns (ok: bool)
      requires Valid()
      modifies Repr()
      ensures Valid() && ok
      ensures Free() == Offsets(rows, itemSize, cols) && InUse() == []
    {
      freeBuffers.Reset();
      inUseBuffers.Reset();
      var i := 0;
      while i < rows
        invariant Valid() && i <= rows
        invariant Free() == Offsets(i, itemSize, cols) && InUse() == []
      {
        var pushed := SetFreeBuffer(SlotOffset(i, itemSize, cols));
        if !pushed {
          return false;
        }
        OffsetsAppend(i, itemSize, cols);
        i := i + 1;
      }
      ok := true;
    }

    method GetFreeBuffer() returns (ok: bool, slot: nat)
      requires Valid()
      modifies freeBuffers`front
      ensures Valid() && InUse() == old(InUse())
      ensures ok == (old(Free()) != [])
      ensures ok ==> old(Free()) == [slot] + Free()
      ensures !ok ==> Free() == []
    {
      var status, x := freeBuffers.Pop(0, false);
      ok, slot := status.Success?, x;
      assert ok ==> old(Free()) == [slot] + Free();
    }

    method SetFreeBuffer(slot: nat) returns (ok: bool)
      requires Valid()
      modifies freeBuffers.Repr()
      ensures Valid() && InUse() == old(InUse())
      ensures ok == (|old(Free())| < rows)
      ensures Free() == if ok then old(Free()) + [slot] else old(Free())
    {
      var status := freeBuffers.Push(slot);
      ok := status.Success?;
    }

    method GetInUseBuffer() returns (ok: bool, slot: nat)
      requires Valid()
      modifies inUseBuffers`front
      ensures Valid() && Free() == old(Free())
      ensures ok == (old(InUse()) != [])
      ensures ok ==> old(InUse()) == [slot] + InUse()
      ensures !ok ==> InUse() == []
    {
      var status, x := inUseBuffers.Pop(0, false);
      ok, slot := status.Success?, x;
      assert ok ==> old(InUse()) == [slot] + InUse();
    }

    method SetInUseBuffer(slot: nat) returns (ok: bool)
      requires Valid()
      modifies inUseBuffers.Repr()
      ensures Valid() && Free() == old(Free())
      ensures ok == (|old(InUse())| < rows)
      ensures InUse() == if ok then old(InUse()) + [slot] else old(InUse())
    {
      var status := inUseBuffers.Push(slot);
      ok := status.Success?;
    }
  }
}
