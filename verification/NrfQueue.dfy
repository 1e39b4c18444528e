/** nrf_queue.c in NO_OVERFLOW mode: a ring of size+1 cells between two indices. Every
    operation runs in a critical region, so each method is one atomic step. */
module NrfQueue {

  datatype Status = Success | NoMem | NotFound

  /** The elements between two indices of a ring, oldest first. */
  ghost function Ring<T>(cells: seq<T>, front: nat, back: nat): seq<T>
    requires front <= |cells| && back <= |cells|
  {
    if front <= back then cells[front..back] else cells[front..] + cells[..back]
  }

  /** One block copy behind the back index appends, also when it ends at the last cell. */
  lemma RingAppend<T>(cells: seq<T>, more: seq<T>, front: nat, back: nat, data: seq<T>)
    requires front < |cells| && back < |cells| && data != [] && |Ring(cells, front, back)| + |data| < |cells|
    requires back + |data| <= |cells| && more == cells[..back] + data + cells[back + |data|..]
    ensures Ring(more, front, if back + |data| < |cells| then back + |data| else 0) == Ring(cells, front, back) + data
  {
    if front <= back {
      assert more[front..back + |data|] == cells[front..back] + data;
      assert more[..0] == [];
    } else {
      assert more[..back + |data|] == cells[..back] + data;
      assert more[front..] == cells[front..];
    }
  }

  /** Reading in one or two blocks from the front index takes the oldest elements. */
  lemma RingTake<T>(cells: seq<T>, front: nat, back: nat, count: nat)
    requires front < |cells| && back < |cells| && count <= |Ring(cells, front, back)|
    ensures front <= back ==> Ring(cells, front, back)[..count] == cells[front..front + count]
    ensures front > back && front + count <= |cells| ==> Ring(cells, front, back)[..count] == cells[front..front + count]
    ensures front + count >= |cells|
            ==> Ring(cells, front, back)[..count] == cells[front..] + cells[..front + count - |cells|]
    ensures var next := if front + count < |cells| then front + count else front + count - |cells|;
            next < |cells| && (count > 0 ==> Ring(cells, front, back)[count..] == Ring(cells, next, back))
  {
  }

  class Queue<T(0)> {
    const size: nat
    const buffer: array<T>
    var front: nat
    var back: nat

    ghost predicate Valid()
      reads this
    {
      buffer.Length == size + 1 && front <= size && back <= size
    }

    ghost function Repr(): set<object> {
      {this, buffer}
    }

    /** The queued elements, oldest first. */
    ghost function Contents(): (s: seq<T>)
      requires Valid()
      reads this, buffer
      ensures |s| <= size
      ensures |s| == Utilization()
    {
      Ring(buffer[..], front, back)
    }

    constructor (size: nat)
      ensures Valid() && this.size == size && fresh(buffer)
      ensures Contents() == []
    {
      this.size := size;
      buffer := new T[size + 1];
      front, back := 0, 0;
    }

    function NextIdx(idx: nat): (r: nat) {
      if idx < size then idx + 1 else 0
    }

    function Utilization(): (n: nat)
      requires Valid()
      reads this
    {
      if back >= front then back - front else size + 1 - front + back
    }

    predicate IsFull()
      requires Valid()
      reads this
      ensures IsFull() <==> Utilization() == size
    {
      NextIdx(back) == front
    }

    predicate IsEmpty()
      requires Valid()
      reads this
      ensures IsEmpty() <==> Utilization() == 0
    {
      front == back
    }

    method Push(x: T) returns (status: Status)
      requires Valid()
      modifies this`back, buffer
      ensures Valid()
      ensures status == (if |old(Contents())| < size then Success else NoMem)
      ensures Contents() == if status.Success? then old(Contents()) + [x] else old(Contents())
    {
      if !IsFull() {
        var writePos := back;
        back := NextIdx(back);
        buffer[writePos] := x;
        status := Success;
      } else {
        status := NoMem;
      }
    }

    /** nrf_queue_generic_pop; on NotFound the destination is left as it was (dflt). */
    method Pop(dflt: T, justPeek: bool) returns (status: Status, x: T)
      requires Valid()
      modifies this`front
      ensures Valid()
      ensures status == if old(Contents()) != [] then Success else NotFound
      ensures x == if status.Success? then old(Contents())[0] else dflt
      ensures Contents() == if status.Success? && !justPeek then old(Contents())[1..] else old(Contents())
    {
      if !IsEmpty() {
        var readPos := front;
        if !justPeek {
          front := NextIdx(front);
        }
        x := buffer[readPos];
        status := Success;
      } else {
        x := dflt;
        status := NotFound;
      }
    }

    /** queue_write: one block copy, or two when the ring wraps. */
    method Write(data: seq<T>) returns (status: Status)
      requires Valid()
      modifies this`back, buffer
      ensures Valid()
      ensures status == if |old(Contents())| + |data| <= size then Success else NoMem
      ensures Contents() == if status.Success? then old(Contents()) + data else old(Contents())
    {
      if |data| == 0 {
        return Success;
      }
      if size - Utilization() < |data| {
        return NoMem;
      }
      var continuous := size + 1 - back;
      if |data| <= continuous {
        AppendBlock(data);
      } else {
        AppendBlock(data[..continuous]);
        AppendBlock(data[continuous..]);
        assert data == data[..continuous] + data[continuous..];
      }
      status := Success;
    }

    /** A block copy behind the back index, which then wraps to 0 at the end of the ring. */
    method AppendBlock(data: seq<T>)
      requires Valid() && data != [] && |Contents()| + |data| <= size && back + |data| <= size + 1
      modifies this`back, buffer
      ensures Valid() && Contents() == old(Contents()) + data
      ensures back == if old(back) + |data| <= size then old(back) + |data| else 0
    {
      ghost var was := buffer[..];
      CopyIn(back, data);
      RingAppend(was, buffer[..], front, back, data);
      back := if back + |data| <= size then back + |data| else 0;
    }

    /** memcpy into the ring's storage. */
    method CopyIn(at: nat, data: seq<T>)
      requires at + |data| <= buffer.Length
      modifies buffer
      ensures buffer[..] == old(buffer[..])[..at] + data + old(buffer[..])[at + |data|..]
    {
      forall i | 0 <= i < |data| {
        buffer[at + i] := data[i];
      }
    }

    /** queue_read: all-or-nothing, in one or two block copies. */
    method Read(count: nat) returns (status: Status, data: seq<T>)
      requires Valid()
      modifies this`front
      ensures Valid()
      ensures status == if count <= |old(Contents())| then Success else NotFound
      ensures status.Success? ==> data == old(Contents())[..count] && Contents() == old(Contents())[count..]
      ensures !status.Success? ==> data == [] && Contents() == old(Contents())
    {
      if count == 0 {
        return Success, [];
      }
      if Utilization() < count {
        return NotFound, [];
      }
      RingTake(buffer[..], front, back, count);
      var continuous := if front <= back then back - front else size + 1 - front;
      if count <= continuous {
        data := buffer[front..front + count];
        front := if front + count <= size then front + count else 0;
      } else {
        var left := count - continuous;
        data := buffer[front..front + continuous] + buffer[..left];
        front := left;
      }
      status := Success;
    }

    method Reset()
      requires Valid()
      modifies this`front, this`back
      ensures Valid() && Contents() == []
    {
      front, back := 0, 0;
    }
  }
}
