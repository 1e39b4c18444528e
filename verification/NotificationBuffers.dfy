/** notification_buffers.c: two queues of row numbers over a pool of rows. A pointer to the
    first byte of a row is the number of that row. */
module NotificationBuffers {
  import opened Common
  import opened NrfQueue

  class NotifBuffers {
    const freeBuffers: Queue<nat>
    const inUseBuffers: Queue<nat>
    const count: nat

    ghost function Repr(): set<object> {
      freeBuffers.Repr() + inUseBuffers.Repr()
    }

    ghost predicate Valid()
      reads this, Repr()
    {
      && freeBuffers.Valid() && inUseBuffers.Valid()
      && freeBuffers.Repr() !! inUseBuffers.Repr()
      && this !in Repr()
      && freeBuffers.size == count && inUseBuffers.size == count
    }

    ghost function Free(): seq<nat>
      requires Valid()
      reads this, Repr()
    {
      freeBuffers.Contents()
    }

    ghost function InUse(): seq<nat>
      requires Valid()
      reads this, Repr()
    {
      inUseBuffers.Contents()
    }

    constructor (count: nat)
      ensures Valid() && this.count == count
      ensures Free() == Iota(count) && InUse() == []
      ensures fresh(Repr())
    {
      this.count := count;
      freeBuffers := new Queue<nat>(count);
      inUseBuffers := new Queue<nat>(count);
      new;
      var ok := Reset();
    }

    method Reset() returns (ok: bool)
      requires Valid()
      modifies Repr()
      ensures Valid() && ok
      ensures Free() == Iota(count) && InUse() == []
    {
      freeBuffers.Reset();
      inUseBuffers.Reset();
      var i := 0;
      while i < count
        invariant Valid() && i <= count
        invariant Free() == Iota(i) && InUse() == []
      {
        var pushed := SetFreeBuffer(i);
        if !pushed {
          return false;
        }
        IotaAppend(i);
        i := i + 1;
      }
      ok := true;
    }

    method GetFreeBuffer() returns (ok: bool, buf: nat)
      requires Valid()
      modifies freeBuffers`front
      ensures Valid() && InUse() == old(InUse())
      ensures ok == (old(Free()) != [])
      ensures ok ==> old(Free()) == [buf] + Free()
      ensures !ok ==> Free() == []
    {
      var status, x := freeBuffers.Pop(0, false);
      ok, buf := status.Success?, x;
      assert ok ==> old(Free()) == [buf] + Free();
    }

    method SetFreeBuffer(buf: nat) returns (ok: bool)
      requires Valid()
      modifies freeBuffers.Repr()
      ensures Valid() && InUse() == old(InUse())
      ensures ok == (|old(Free())| < count)
      ensures Free() == if ok then old(Free()) + [buf] else old(Free())
    {
      var status := freeBuffers.Push(buf);
      ok := status.Success?;
    }

    method GetInUseBuffer() returns (ok: bool, buf: nat)
      requires Valid()
      modifies inUseBuffers`front
      ensures Valid() && Free() == old(Free())
      ensures ok == (old(InUse()) != [])
      ensures ok ==> old(InUse()) == [buf] + InUse()
      ensures !ok ==> InUse() == []
    {
      var status, x := inUseBuffers.Pop(0, false);
      ok, buf := status.Success?, x;
      assert ok ==> old(InUse()) == [buf] + InUse();
    }

    method SetInUseBuffer(buf: nat) returns (ok: bool)
      requires Valid()
      modifies inUseBuffers.Repr()
      ensures Valid() && Free() == old(Free())
      ensures ok == (|old(InUse())| < count)
      ensures InUse() == if ok then old(InUse()) + [buf] else old(InUse())
    {
      var status := inUseBuffers.Push(buf);
      ok := status.Success?;
    }
  }
}
