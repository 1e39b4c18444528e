/** The main results about the transmit path of ble_comm.c. */
module CommTheorems {
  import opened Common
  import opened CommSpec
  import opened CommProofs
  import BleNus

  predicate PoolOk(pool: seq<seq<byte>>) {
    |pool| > 0 && forall i :: 0 <= i < |pool| ==> |pool[i]| == BUFFER_LEN
  }

  /** The state after BLE_COMM_init and the events es. */
  function After(pool: seq<seq<byte>>, es: seq<Event>): Machine {
    Exec(Machine(Init(pool), Idle), es)
  }

  predicate Possible(pool: seq<seq<byte>>, es: seq<Event>) {
    PoolOk(pool) && AllowedRun(Machine(Init(pool), Idle), es)
  }

  lemma ReachableInv(pool: seq<seq<byte>>, es: seq<Event>)
    requires Possible(pool, es)
    ensures Inv(After(pool, es))
  {
    InitInv(pool);
    RunKeepsInv(Machine(Init(pool), Idle), es);
  }

  /** The data of the calls of BLE_COMM_send_data that answered Success since the last
      NOTIFICATION_ON of a run, after the bytes given so far. */
  function Answered(m: Machine, es: seq<Event>, given: seq<byte>): seq<byte>
    decreases es
  {
    if es == [] then given
    else
      var more := match es[0]
        case Send(data) => if SendData(m.w, data).1 == Success then given + data else given
        case On => []
        case _ => given;
      Answered(Next(m, es[0]), es[1..], more)
  }

  lemma StepWrites(m: Machine, accept: bool)
    ensures Step(m, accept).w.t.written == m.w.t.written
  {
  }

  /** What counts as written is what was answered with Success. */
  lemma {:induction false} WrittenIsAnswered(m: Machine, es: seq<Event>)
    ensures Exec(m, es).w.t.written == Answered(m, es, m.w.t.written)
    decreases es
  {
    if es != [] {
      if es[0].Main? {
        StepWrites(m, es[0].accept);
      }
      WrittenIsAnswered(Next(m, es[0]), es[1..]);
    }
  }

  /** Stream refinement: whatever the SoftDevice refuses and whatever interrupts occur
      between whichever statements, the accepted payloads, then the bytes in hand, then the
      byte queue are the data of the calls of BLE_COMM_send_data that answered Success since
      NOTIFICATION_ON. */
  lemma StreamRefinement(pool: seq<seq<byte>>, es: seq<Event>)
    requires Possible(pool, es)
    ensures var m := After(pool, es); var c := m.w.c;
            && Flat(m.w.t.sent) + InHand(m) + c.tx == Answered(Machine(Init(pool), Idle), es, [])
            && (m.pc.Idle? && c.pend.None? ==> InHand(m) == [])
            && (m.pc.Idle? && c.pend.Some? ==>
                 && c.pend.value < |c.pool| && c.pendLen <= |c.pool[c.pend.value]|
                 && InHand(m) == c.pool[c.pend.value][..c.pendLen])
  {
    ReachableInv(pool, es);
    WrittenIsAnswered(Machine(Init(pool), Idle), es);
    var m := After(pool, es);
    if m.pc.Idle? && m.w.c.pend.Some? {
      HeldFacts(m, m.w.c.pend.value);
    }
  }

  /** Ownership under preemption: every pool buffer is in exactly one of the free queue, the
      in-use queue and the function's hands, and no push on either queue can fail, except the
      one that would give back a buffer a reset has given back already. */
  lemma OwnershipUnderPreemption(pool: seq<seq<byte>>, es: seq<Event>)
    requires Possible(pool, es)
    ensures var m := After(pool, es); var c := m.w.c;
            && |c.pool| == |pool|
            && multiset(c.free) + multiset(c.inUse) + multiset(Held(m)) == multiset(Iota(|pool|))
            && (c.inUse != [] || (m.pc.GiveBack? && !Void(m)) ==> |c.free| < |pool|)
            && (Marking(m) != [] ==> |c.inUse| < |pool|)
  {
    ReachableInv(pool, es);
    PoolSizeKept(Machine(Init(pool), Idle), es);
    var m := After(pool, es);
    PushesSucceed(m);
    PartitionIsPermutation(|m.w.c.pool|, m.w.c.free, m.w.c.inUse, Held(m));
  }

  lemma {:induction false} PoolSizeKept(m: Machine, es: seq<Event>)
    ensures |Exec(m, es).w.c.pool| == |m.w.c.pool|
    decreases es
  {
    if es != [] {
      PoolSizeKept(Next(m, es[0]), es[1..]);
    }
  }

  /** Payload stability: the row behind a packet the SoftDevice accepted keeps the bytes it
      was given until the row returns to the free queue. */
  lemma PayloadStability(pool: seq<seq<byte>>, es: seq<Event>, i: nat)
    requires Possible(pool, es)
    requires After(pool, es).w.t.freed <= i < |After(pool, es).w.t.sent|
    ensures var m := After(pool, es); var p := m.w.t.sent[i];
            && p.buf !in m.w.c.free && p.buf < |m.w.c.pool|
            && |p.payload| <= |m.w.c.pool[p.buf]| == BUFFER_LEN
            && p.payload == m.w.c.pool[p.buf][..|p.payload|]
  {
    ReachableInv(pool, es);
    var m := After(pool, es);
    UnfreedInUse(m, i);
    PartitionFacts(|m.w.c.pool|, m.w.c.free, m.w.c.inUse, Held(m));
  }

  predicate SizesOk(sent: seq<Packet>) {
    forall i :: 0 <= i < |sent| ==> 0 < |sent[i].payload| <= BUFFER_LEN
  }

  lemma {:induction false} RunKeepsSizes(m: Machine, es: seq<Event>)
    requires Inv(m) && AllowedRun(m, es) && SizesOk(m.w.t.sent)
    ensures SizesOk(Exec(m, es).w.t.sent)
    decreases es
  {
    if es != [] {
      NextKeepsInv(m, es[0]);
      NextKeepsSizes(m, es[0]);
      RunKeepsSizes(Next(m, es[0]), es[1..]);
    }
  }

  lemma NextKeepsSizes(m: Machine, e: Event)
    requires Inv(m) && SizesOk(m.w.t.sent)
    ensures SizesOk(Next(m, e).w.t.sent)
  {
    if e.Main? {
      OfferedSizes(m, e.accept);
    }
  }

  lemma OfferedSizes(m: Machine, accept: bool)
    requires WellFormed(m.w.c) && LocalsOk(m) && Owned(m) && SizesOk(m.w.t.sent)
    ensures SizesOk(Step(m, accept).w.t.sent)
  {
    if m.pc.SendPending? && accept && m.pc.ptr.Some? {
      AcceptedSize(m.w, m.pc.ptr.value, m.pc.len);
    } else if m.pc.SendNew? && accept {
      HeldFacts(m, m.pc.buf);
      AcceptedSize(m.w, m.pc.buf, m.pc.len);
    } else {
      assert Step(m, accept).w.t.sent == m.w.t.sent;
    }
  }

  lemma AcceptedSize(w: World, buf: nat, len: nat)
    requires WellFormed(w.c) && SizesOk(w.t.sent) && buf < |w.c.pool| && 0 < len <= BUFFER_LEN
    ensures SizesOk(Accept(w, buf, len).t.sent)
  {
  }

  /** No empty notification is ever sent, and none longer than the limit that
      ble_nus_string_send checks. */
  lemma PayloadsFit(pool: seq<seq<byte>>, es: seq<Event>)
    requires Possible(pool, es)
    ensures forall i :: 0 <= i < |After(pool, es).w.t.sent|
                        ==> 0 < |After(pool, es).w.t.sent[i].payload| <= BleNus.MAX_DATA_LEN
  {
    InitInv(pool);
    RunKeepsSizes(Machine(Init(pool), Idle), es);
  }

  // ---------------------------------------------------------------- the two granularities

  /** Run up to k statements of tx_process without interrupts. */
  function Walk(m: Machine, acceptPending: bool, acceptNew: bool, k: nat): Machine
    decreases k
  {
    if k == 0 || m.pc.Idle? then m
    else Walk(Step(m, if m.pc.SendPending? then acceptPending else acceptNew), acceptPending, acceptNew, k - 1)
  }

  lemma WalkOffer(m: Machine, acceptPending: bool, acceptNew: bool, k: nat)
    requires m.pc.SendNew? && k >= 3
    ensures Walk(m, acceptPending, acceptNew, k) == Machine(OfferChunk(m.w, m.pc.buf, m.pc.len, acceptNew), Idle)
  {
    var m1 := Step(m, acceptNew);
    var m2 := Step(m1, acceptNew);
    assert Walk(m, acceptPending, acceptNew, k) == Walk(m1, acceptPending, acceptNew, k - 1);
    assert Walk(m1, acceptPending, acceptNew, k - 1) == Walk(m2, acceptPending, acceptNew, k - 2);
    if !acceptNew {
      assert Walk(m2, acceptPending, acceptNew, k - 2) == Walk(Step(m2, acceptNew), acceptPending, acceptNew, k - 3);
    }
  }

  /** From the length test on, the statements compute SendNextChunk. */
  lemma WalkChunk(w: World, acceptPending: bool, acceptNew: bool, k: nat)
    requires k >= 6
    ensures Walk(Machine(w, CheckQueue), acceptPending, acceptNew, k) == Machine(SendNextChunk(w, acceptNew), Idle)
  {
    var m1 := Step(Machine(w, CheckQueue), acceptNew);
    if w.c.tx != [] {
      var m2 := Step(m1, acceptNew);
      assert Walk(Machine(w, CheckQueue), acceptPending, acceptNew, k) == Walk(m2, acceptPending, acceptNew, k - 2);
      if w.c.free != [] {
        var m3 := Step(m2, acceptNew);
        WalkOffer(m3, acceptPending, acceptNew, k - 3);
      }
    }
  }

  /** The statement machine without interrupts is the whole function, in at most twelve steps
      after the test of the flag, whether notifications are on or off. */
  lemma UninterruptedIsTxProcess(w: World, acceptPending: bool, acceptNew: bool)
    ensures Walk(Step(Machine(w, Idle), acceptNew), acceptPending, acceptNew, 12)
         == Machine(TxProcess(w, acceptPending, acceptNew), Idle)
  {
    if w.c.enabled {
      EnabledIsTxProcess(w, acceptPending, acceptNew);
    }
  }

  lemma EnabledIsTxProcess(w: World, acceptPending: bool, acceptNew: bool)
    requires w.c.enabled
    ensures Walk(Machine(w, CheckPending), acceptPending, acceptNew, 12)
         == Machine(TxProcess(w, acceptPending, acceptNew), Idle)
  {
    var m := Machine(w, CheckPending);
    if w.c.pend.None? {
      WalkChunk(w, acceptPending, acceptNew, 11);
    } else {
      var m2 := m.(pc := SendPending(w.c.pend, w.c.pendLen));
      assert Walk(m, acceptPending, acceptNew, 12) == Walk(m.(pc := LoadPending), acceptPending, acceptNew, 11)
          == Walk(m2, acceptPending, acceptNew, 10);
      if acceptPending {
        WalkSent(w, acceptPending, acceptNew);
        WalkChunk(SendPendingBuffer(w, true), acceptPending, acceptNew, 6);
      }
    }
  }

  /** Nothing at all happens with notifications off, with the pending buffer refused, and with
      nothing to send or no buffer to send it from. */
  predicate NothingToDo(w: World, acceptPending: bool) {
    || !w.c.enabled
    || (w.c.pend.Some? && !acceptPending)
    || (w.c.pend.None? && (w.c.tx == [] || w.c.free == []))
  }

  lemma NothingDone(w: World, acceptPending: bool, acceptNew: bool)
    requires NothingToDo(w, acceptPending)
    ensures TxProcess(w, acceptPending, acceptNew) == w
  {
  }

  /** The accepted pending buffer is marked and the slot cleared. */
  lemma WalkSent(w: World, acceptPending: bool, acceptNew: bool)
    requires w.c.pend.Some? && acceptPending
    ensures Walk(Machine(w, SendPending(w.c.pend, w.c.pendLen)), acceptPending, acceptNew, 10)
         == Walk(Machine(SendPendingBuffer(w, true), CheckQueue), acceptPending, acceptNew, 6)
  {
    var m := Machine(w, SendPending(w.c.pend, w.c.pendLen));
    var m1 := Step(m, true);
    var m2 := Step(m1, acceptNew);
    var m3 := Step(m2, acceptNew);
    assert m1.pc.LoadMark? && m2.pc == MarkPending(w.c.pend) && m3.pc.ClearPending?;
    assert Walk(m, acceptPending, acceptNew, 10) == Walk(m1, acceptPending, acceptNew, 9)
        == Walk(m2, acceptPending, acceptNew, 8) == Walk(m3, acceptPending, acceptNew, 7);
    assert Step(m3, acceptNew) == Machine(SendPendingBuffer(w, true), CheckQueue);
  }

  /** Without a reset in between, the pointer hvx is called with is the pending one. */
  lemma StepNotStale(m: Machine, accept: bool)
    requires !StaleSend(m)
    ensures !StaleSend(Step(m, accept))
  {
  }

  /** z is where the walk of at most k statements ends. */
  lemma {:induction false} WalkKeepsInv(m: Machine, acceptPending: bool, acceptNew: bool, k: nat, z: Machine)
    requires z == Walk(m, acceptPending, acceptNew, k)
    ensures Inv(m) && !StaleSend(m) ==> Inv(z)
    decreases k
  {
    if Inv(m) && !StaleSend(m) && k > 0 && !m.pc.Idle? {
      var accept := if m.pc.SendPending? then acceptPending else acceptNew;
      StepKeepsInv(m, accept);
      StepNotStale(m, accept);
      WalkKeepsInv(Step(m, accept), acceptPending, acceptNew, k - 1, z);
    }
  }

  /** So whole calls keep the invariant as well. */
  lemma TxProcessKeepsInv(w: World, acceptPending: bool, acceptNew: bool)
    requires Inv(Machine(w, Idle))
    ensures Inv(Machine(TxProcess(w, acceptPending, acceptNew), Idle))
  {
    if w.c.enabled {
      StepKeepsInv(Machine(w, Idle), false);
      EnabledIsTxProcess(w, acceptPending, acceptNew);
      WalkKeepsInv(Machine(w, CheckPending), acceptPending, acceptNew, 12,
                   Machine(TxProcess(w, acceptPending, acceptNew), Idle));
    }
  }

  // ---------------------------------------------------------------- progress

  /** What the proofs below need of the invariant. */
  predicate RowsOk(c: Comm) {
    && WellFormed(c)
    && (forall x: nat :: x in c.free ==> x < |c.pool|)
    && (c.pend.Some? ==> c.pend.value < |c.pool| && 0 < c.pendLen <= BUFFER_LEN)
  }

  lemma InvRows(w: World)
    requires Inv(Machine(w, Idle))
    ensures RowsOk(w.c)
  {
    PartitionFacts(|w.c.pool|, w.c.free, w.c.inUse, Held(Machine(w, Idle)));
    assert w.c.pend.Some? ==> w.c.pend.value in Held(Machine(w, Idle));
  }

  function Load(c: Comm): nat {
    (if c.pend.Some? then c.pendLen else 0) + |c.tx|
  }

  /** Each call in which the SoftDevice accepts takes something off the load, by exactly the
      bytes it hands over. */
  lemma Progress(w: World, acceptNew: bool)
    requires RowsOk(w.c) && w.c.enabled
    ensures var n := TxProcess(w, true, acceptNew);
            && Load(n.c) + |Flat(n.t.sent)| == Load(w.c) + |Flat(w.t.sent)|
            && Load(n.c) <= Load(w.c)
            && (Load(n.c) == Load(w.c) <==> n.t.sent == w.t.sent)
            && (w.c.pend.Some? || (acceptNew && w.c.tx != [] && w.c.free != []) ==> n.t.sent != w.t.sent)
  {
    if w.c.pend.Some? {
      FlatAppend(w.t.sent, Packet(w.c.pend.value, Payload(w.c, w.c.pend.value, w.c.pendLen)));
      ChunkProgress(SendPendingBuffer(w, true), acceptNew);
    } else {
      ChunkProgress(w, acceptNew);
    }
  }

  lemma ChunkProgress(w: World, acceptNew: bool)
    requires w.c.pend.None? && RowsOk(w.c)
    ensures var n := SendNextChunk(w, acceptNew);
            && Load(n.c) + |Flat(n.t.sent)| == Load(w.c) + |Flat(w.t.sent)|
            && w.t.sent <= n.t.sent
            && |n.t.sent| == |w.t.sent| + (if acceptNew && w.c.tx != [] && w.c.free != [] then 1 else 0)
            && |Flat(n.t.sent)| >= |Flat(w.t.sent)| + |n.t.sent| - |w.t.sent|
  {
    if w.c.tx != [] && w.c.free != [] {
      var buf, len := w.c.free[0], Min(|w.c.tx|, BUFFER_LEN);
      assert buf in w.c.free;
      var row := Overwrite(w.c.pool[buf], w.c.tx[..len]);
      assert row[..len] == w.c.tx[..len];
      FlatAppend(w.t.sent, Packet(buf, row[..len]));
    }
  }

  function Calls(w: World, k: nat): World {
    if k == 0 then w else TxProcess(Calls(w, k - 1), true, true)
  }

  function CeilDiv(n: nat): nat {
    (n + BUFFER_LEN - 1) / BUFFER_LEN
  }

  /** n is w after k calls that each sent one slice of w's byte queue. */
  predicate Drained(w: World, n: World, k: nat) {
    && n.c.enabled && n.c.pend.None?
    && k <= |w.c.free| && n.c.free == w.c.free[k..]
    && n.c.tx == w.c.tx[Min(k * BUFFER_LEN, |w.c.tx|)..]
    && w.t.sent <= n.t.sent
    && Sliced(n.t.sent, |w.t.sent|, w.c.tx, k)
  }

  /** With nothing pending, every packet accepted and enough free buffers, call k sends the
      k-th slice of 20 bytes of the queue. */
  lemma {:induction false} DrainSlices(w: World, k: nat)
    requires Inv(Machine(w, Idle)) && w.c.enabled && w.c.pend.None?
    requires k <= CeilDiv(|w.c.tx|) <= |w.c.free|
    ensures Drained(w, Calls(w, k), k)
  {
    if k == 0 {
      DrainNone(w);
    } else {
      DrainSlices(w, k - 1);
      CallsKeepRows(w, k - 1);
      DrainOne(w, Calls(w, k - 1), Calls(w, k), k - 1);
    }
  }

  lemma DrainNone(w: World)
    requires w.c.enabled && w.c.pend.None?
    ensures Drained(w, w, 0)
  {
  }

  /** The k-th slice of 20 bytes; the last one may be shorter. */
  function Slice(tx: seq<byte>, k: nat): seq<byte> {
    if k * BUFFER_LEN <= |tx| then tx[k * BUFFER_LEN..Min((k + 1) * BUFFER_LEN, |tx|)] else []
  }

  /** Packets from number base on carry slices 0 to k-1. */
  predicate Sliced(sent: seq<Packet>, base: nat, tx: seq<byte>, k: nat) {
    |sent| == base + k && forall i :: base <= i < |sent| ==> sent[i].payload == Slice(tx, i - base)
  }

  lemma SlicedMore(sent: seq<Packet>, more: seq<Packet>, base: nat, tx: seq<byte>, k: nat)
    requires Sliced(sent, base, tx, k) && sent <= more && |more| == |sent| + 1
    requires more[|sent|].payload == Slice(tx, k)
    ensures Sliced(more, base, tx, k + 1)
  {
  }

  lemma CallsKeepRows(w: World, k: nat)
    requires Inv(Machine(w, Idle))
    ensures RowsOk(Calls(w, k).c)
  {
    CallsKeepInv(w, k);
    InvRows(Calls(w, k));
  }

  lemma CallKeepsInv(w: World, n: World)
    requires Inv(Machine(w, Idle)) && n == TxProcess(w, true, true)
    ensures Inv(Machine(n, Idle))
  {
    TxProcessKeepsInv(w, true, true);
  }

  lemma {:induction false} CallsKeepInv(w: World, k: nat)
    requires Inv(Machine(w, Idle))
    ensures Inv(Machine(Calls(w, k), Idle))
  {
    if k > 0 {
      CallsKeepInv(w, k - 1);
      CallKeepsInv(Calls(w, k - 1), Calls(w, k));
    }
  }

  /** A queue of n bytes is gone after ceil(n/20) calls, and not before. */
  lemma DrainCount(w: World)
    requires Inv(Machine(w, Idle)) && w.c.enabled && w.c.pend.None?
    requires CeilDiv(|w.c.tx|) <= |w.c.free|
    ensures Calls(w, CeilDiv(|w.c.tx|)).c.tx == []
    ensures forall k :: 0 <= k < CeilDiv(|w.c.tx|) ==> Calls(w, k).c.tx != []
  {
    DrainSlices(w, CeilDiv(|w.c.tx|));
    forall k | 0 <= k < CeilDiv(|w.c.tx|)
      ensures Calls(w, k).c.tx != []
    {
      DrainSlices(w, k);
    }
  }

  lemma DrainOne(w: World, p: World, n: World, k: nat)
    requires RowsOk(p.c) && k < CeilDiv(|w.c.tx|) <= |w.c.free| && n == TxProcess(p, true, true)
    ensures Drained(w, p, k) ==> Drained(w, n, k + 1)
  {
    if Drained(w, p, k) {
      SendsSlice(w, p, n, k);
    }
  }

  lemma SendsSlice(w: World, p: World, n: World, k: nat)
    requires RowsOk(p.c) && Drained(w, p, k) && k < CeilDiv(|w.c.tx|) <= |w.c.free| && n == TxProcess(p, true, true)
    ensures Drained(w, n, k + 1)
  {
    var tx, at := w.c.tx, k * BUFFER_LEN;
    assert at < |tx|;
    var len, buf := Min(|p.c.tx|, BUFFER_LEN), p.c.free[0];
    assert buf in p.c.free;
    assert p.c.tx[..len] == Slice(tx, k);
    assert p.c.tx[len..] == tx[Min((k + 1) * BUFFER_LEN, |tx|)..];
    assert Payload(p.c.(pool := p.c.pool[buf := Overwrite(p.c.pool[buf], p.c.tx[..len])]), buf, len) == p.c.tx[..len];
    SlicedMore(p.t.sent, n.t.sent, |w.t.sent|, tx, k);
  }
}
