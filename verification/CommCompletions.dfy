/** What TX_COMPLETE events do to the buffers, over runs of any number of epochs. */
module CommCompletions {
  import opened Common
  import opened CommSpec
  import opened CommProofs
  import opened CommTheorems
  import opened CommResets

  lemma UnfreedCount(m: Machine)
    requires Linked(m)
    ensures |m.w.c.inUse| + |Marking(m)| == |m.w.t.sent| - m.w.t.freed
  {
    assert |m.w.c.inUse + Marking(m)| == |Bufs(m.w.t.sent[m.w.t.freed..])|;
  }

  lemma StepKeepsCounts(m: Machine, accept: bool)
    ensures var s, t := Step(m, accept).w.t, m.w.t;
            && s.freed == t.freed && s.arrived == t.arrived && s.completed == t.completed && s.dropped == t.dropped
            && |s.sent| <= |t.sent| + 1 && t.sent <= s.sent
  {
  }

  // ---------------------------------------------------------------- events and freed buffers

  /** A TX_COMPLETE that finds the in-use queue empty and so frees nothing. */
  predicate Lost(m: Machine, e: Event) {
    e.Complete? && m.w.c.inUse == []
  }

  predicate LosesNone(m: Machine, es: seq<Event>)
    decreases es
  {
    es == [] || (!Lost(m, es[0]) && LosesNone(Next(m, es[0]), es[1..]))
  }

  /** Events of this epoch that freed nothing. */
  function Deficit(m: Machine): int {
    m.w.t.arrived - m.w.t.freed
  }

  /** Bookkeeping for the results below: within an epoch the freed buffers stay level with the
      events exactly when none was lost, and a lost one is never made up for. */
  lemma {:induction false} LevelIffNoneLost(m: Machine, es: seq<Event>)
    requires forall i :: 0 <= i < |es| ==> !es[i].On?
    ensures Deficit(Exec(m, es)) >= Deficit(m)
    ensures Deficit(Exec(m, es)) == Deficit(m) <==> LosesNone(m, es)
    decreases es
  {
    if es != [] {
      if es[0].Main? {
        StepKeepsCounts(m, es[0].accept);
      }
      assert Deficit(Next(m, es[0])) == Deficit(m) + if Lost(m, es[0]) then 1 else 0;
      LevelIffNoneLost(Next(m, es[0]), es[1..]);
    }
  }

  /** Outside the marking window an event frees the buffer of the oldest packet for which no
      event has come yet, as long as there are no more events than packets. */
  lemma CompletionFreesOldest(m: Machine, count: nat)
    requires Inv(m) && Marking(m) == [] && Deficit(m) == 0 && m.w.t.arrived < |m.w.t.sent|
    ensures var t, n := m.w.t, Next(m, Complete(count));
            && m.w.c.inUse == Bufs(t.sent[t.arrived..])
            && n.w.c.free == m.w.c.free + [t.sent[t.arrived].buf]
            && n.w.c.inUse == Bufs(t.sent[t.arrived + 1..])
            && Deficit(n) == 0
  {
    PushesSucceed(m);
    CompleteKeepsLinked(m, count);
    assert m.w.c.inUse == m.w.c.inUse + Marking(m);
    var n := Next(m, Complete(count));
    assert n.w.c.inUse == n.w.c.inUse + Marking(n);
    assert Bufs(m.w.t.sent[m.w.t.freed..])[0] == m.w.t.sent[m.w.t.freed].buf;
  }

  /** In no epoch more events than packets, and none of them in the marking window; so it is
      when interrupts fall between whole calls only. */
  predicate QuietRun(m: Machine, es: seq<Event>)
    decreases es
  {
    es == [] || ((es[0].Complete? ==> Marking(m) == [] && m.w.t.arrived < |m.w.t.sent|)
                 && QuietRun(Next(m, es[0]), es[1..]))
  }

  lemma QuietStep(m: Machine, e: Event)
    requires Inv(m) && Deficit(m) == 0
    requires e.Complete? ==> Marking(m) == [] && m.w.t.arrived < |m.w.t.sent|
    ensures Deficit(Next(m, e)) == 0
  {
    if e.Main? {
      StepKeepsCounts(m, e.accept);
    } else if e.Complete? {
      CompletionFreesOldest(m, e.count);
    }
  }

  lemma {:induction false} QuietRunStaysLevel(m: Machine, es: seq<Event>)
    requires Inv(m) && Deficit(m) == 0 && AllowedRun(m, es) && QuietRun(m, es)
    ensures Deficit(Exec(m, es)) == 0
    decreases es
  {
    if es != [] {
      var n := Next(m, es[0]);
      NextKeepsInv(m, es[0]);
      QuietStep(m, es[0]);
      QuietRunStaysLevel(n, es[1..]);
    }
  }

  /** Completion order over whole runs, across any number of epochs: the in-use queue is the
      list of the packets of this epoch without as many as events have come. */
  lemma CompletionOrder(pool: seq<seq<byte>>, es: seq<Event>)
    requires Possible(pool, es) && QuietRun(Machine(Init(pool), Idle), es)
    ensures var m := After(pool, es);
            && m.w.t.freed == m.w.t.arrived <= |m.w.t.sent|
            && m.w.c.inUse + Marking(m) == Bufs(m.w.t.sent[m.w.t.arrived..])
  {
    ReachableInv(pool, es);
    InitInv(pool);
    QuietRunStaysLevel(Machine(Init(pool), Idle), es);
  }

  // ---------------------------------------------------------------- stranded buffers

  /** Buffers of completed packets that were not freed. */
  function Stranded(m: Machine): int {
    m.w.t.completed - m.w.t.freed
  }

  /** Packets beyond the first that the events of a run count. */
  function Excess(es: seq<Event>): nat
    decreases es
  {
    if es == [] then 0
    else (if es[0].Complete? && es[0].count > 0 then es[0].count - 1 else 0) + Excess(es[1..])
  }

  lemma StrandedStep(m: Machine, e: Event, k: nat)
    requires Inv(m) && Stranded(m) <= 1 + k
    ensures Stranded(Next(m, e)) <= 1 + k + Excess([e])
  {
    assert [e][1..] == [];
    if e.Main? {
      StepKeepsCounts(m, e.accept);
    } else if e.Complete? {
      UnfreedCount(m);
    }
  }

  /** An event that comes between the acceptance of a packet and its push on the in-use queue
      can get lost, but over any run, of any number of epochs, that strands at most one
      buffer; the others that are stranded are those the events counted beyond the first. */
  lemma {:induction false} StrandedBound(m: Machine, es: seq<Event>, k: nat)
    requires Inv(m) && AllowedRun(m, es) && Stranded(m) <= 1 + k
    ensures Stranded(Exec(m, es)) <= 1 + k + Excess(es)
    decreases es
  {
    if es != [] {
      NextKeepsInv(m, es[0]);
      StrandedStep(m, es[0], k);
      assert [es[0]][1..] == [];
      StrandedBound(Next(m, es[0]), es[1..], k + Excess([es[0]]));
    }
  }

  /** With one event for each packet, at most one buffer is stranded. */
  lemma AtMostOneStranded(pool: seq<seq<byte>>, es: seq<Event>)
    requires Possible(pool, es)
    requires forall i :: 0 <= i < |es| && es[i].Complete? ==> es[i].count <= 1
    ensures Stranded(After(pool, es)) <= 1
  {
    InitInv(pool);
    NoExcess(es);
    StrandedBound(Machine(Init(pool), Idle), es, 0);
  }

  lemma {:induction false} NoExcess(es: seq<Event>)
    requires forall i :: 0 <= i < |es| && es[i].Complete? ==> es[i].count <= 1
    ensures Excess(es) == 0
    decreases es
  {
    if es != [] {
      forall i | 0 <= i < |es| - 1 && es[1..][i].Complete?
        ensures es[1..][i].count <= 1
      {
        assert es[i + 1].Complete?;
      }
      NoExcess(es[1..]);
    }
  }

  /** The event completes packets of this epoch only, at least one and none in the marking
      window. */
  predicate Punctual(m: Machine, e: Event) {
    e.Complete? ==>
      && e.count >= 1 && Marking(m) == []
      && !m.w.t.dropped && m.w.t.stale == 0 && m.w.t.completed + e.count <= |m.w.t.sent|
  }

  predicate PunctualRun(m: Machine, es: seq<Event>)
    decreases es
  {
    es == [] || (!es[0].On? && Punctual(m, es[0]) && PunctualRun(Next(m, es[0]), es[1..]))
  }

  /** The count of packets in BLE_EVT_TX_COMPLETE is ignored: within an epoch an event that
      counts n of them strands exactly n - 1 buffers. */
  lemma {:induction false} BatchesStrand(m: Machine, es: seq<Event>)
    requires Inv(m) && AllowedRun(m, es) && PunctualRun(m, es) && Stranded(m) >= 0
    ensures Stranded(Exec(m, es)) == Stranded(m) + Excess(es)
    decreases es
  {
    if es != [] {
      NextKeepsInv(m, es[0]);
      BatchStep(m, es[0]);
      assert [es[0]][1..] == [];
      BatchesStrand(Next(m, es[0]), es[1..]);
    }
  }

  lemma BatchStep(m: Machine, e: Event)
    requires Inv(m) && !e.On? && Punctual(m, e) && Stranded(m) >= 0
    ensures Stranded(Next(m, e)) == Stranded(m) + Excess([e])
  {
    assert [e][1..] == [];
    if e.Main? {
      StepKeepsCounts(m, e.accept);
    } else if e.Complete? {
      UnfreedCount(m);
    }
  }

  lemma RoomStep(m: Machine, e: Event)
    requires WellFormed(m.w.c) && LocalsOk(m) && Owned(m) && Linked(m)
    requires Stranded(m) <= MostStranded(|m.w.c.pool|)
    ensures Stranded(Next(m, e)) <= MostStranded(|m.w.c.pool|)
  {
    if e.Main? {
      StepKeepsCounts(m, e.accept);
    } else if e.Complete? {
      UnfreedCount(m);
      MarkedIsHeld(m);
    }
  }

  lemma MarkedIsHeld(m: Machine)
    requires LocalsOk(m)
    ensures |Marking(m)| <= |Held(m)|
  {
  }

  /** An event that frees a buffer leaves one unfreed at most less than there are, and one that
      frees none leaves at most the one being marked. */
  function MostStranded(buffers: nat): nat {
    if buffers >= 2 then buffers - 1 else 1
  }

  lemma {:induction false} RunKeepsRoom(m: Machine, es: seq<Event>)
    requires Inv(m) && AllowedRun(m, es) && Stranded(m) <= MostStranded(|m.w.c.pool|)
    ensures Stranded(Exec(m, es)) <= MostStranded(|m.w.c.pool|)
    decreases es
  {
    if es != [] {
      var n := Next(m, es[0]);
      NextKeepsInv(m, es[0]);
      RoomStep(m, es[0]);
      PoolStep(m, es[0]);
      RunKeepsRoom(n, es[1..]);
    }
  }

  lemma PoolStep(m: Machine, e: Event)
    ensures |Next(m, e).w.c.pool| == |m.w.c.pool|
  {
  }

  /** Whatever the events count and whenever they come: in no run all of two or more buffers
      are stranded. */
  lemma NeverAllStranded(pool: seq<seq<byte>>, es: seq<Event>)
    requires Possible(pool, es)
    ensures Stranded(After(pool, es)) <= MostStranded(|pool|)
  {
    InitInv(pool);
    RunKeepsRoom(Machine(Init(pool), Idle), es);
  }

  /** A pool of two or more buffers cannot starve: after any run, once all packets are
      completed, the next call sends as soon as there is anything to send. */
  lemma NoStarvation(pool: seq<seq<byte>>, es: seq<Event>)
    requires Possible(pool, es) && |pool| >= 2
    ensures var m := After(pool, es); var c := m.w.c;
            m.pc.Idle? && c.enabled && m.w.t.completed == |m.w.t.sent| && (c.pend.Some? || c.tx != [])
            ==> |TxProcess(m.w, true, true).t.sent| > |m.w.t.sent|
  {
    ReachableInv(pool, es);
    NeverAllStranded(pool, es);
    PoolSizeKept(Machine(Init(pool), Idle), es);
    UnfreedCount(After(pool, es));
  }

  /** An event that counts two packets does strand a buffer, in any pool of two or more. */
  lemma BatchStrands(pool: seq<seq<byte>>, x: byte) returns (es: seq<Event>)
    requires PoolOk(pool) && |pool| >= 2
    ensures Possible(pool, es)
    ensures var m := After(pool, es); m.pc.Idle? && m.w.t.completed == |m.w.t.sent| == 2 && Stranded(m) == 1
  {
    var m1 := SwitchedOn(pool);
    es := SwitchOn(pool);
    var m2;
    es, m2 := OneMorePacket(pool, es, m1, x);
    var m3;
    es, m3 := OneMorePacket(pool, es, m2, x);
    es := OneMore(pool, es, m3, Complete(2));
  }

  /** A possible run, one more byte sent and its buffer marked. */
  lemma OneMorePacket(pool: seq<seq<byte>>, es: seq<Event>, m: Machine, x: byte)
    returns (more: seq<Event>, n: Machine)
    requires Reaches(pool, es, m) && Quiet(m) && |m.w.c.inUse| < |m.w.c.pool|
    ensures Reaches(pool, more, n) && n.pc.Idle? && n == Machine(Sent(m, x), Idle)
  {
    var o := Offering(m, x);
    var buf := m.w.c.free[0];
    assert Overwrite(m.w.c.pool[buf], [x])[..1] == [x];
    more := OneMoreByte(pool, es, m, x);
    more := OneMore(pool, more, o, Main(true));
    more := OneMore(pool, more, Machine(Accept(o.w, buf, 1), MarkNew(buf)), Main(true));
    n := Machine(Sent(m, x), Idle);
  }

  function Sent(m: Machine, x: byte): World
    requires Quiet(m)
  {
    var w, buf := Offering(m, x).w, m.w.c.free[0];
    World(w.c.(inUse := w.c.inUse + [buf]), w.t.(sent := w.t.sent + [Packet(buf, [x])]))
  }

  /** Nothing is free and nothing pending, and no call has got past that. */
  predicate Blocked(m: Machine) {
    m.w.c.free == [] && m.w.c.pend.None?
    && (m.pc.Idle? || m.pc.CheckPending? || m.pc.CheckQueue? || m.pc.TakeFree?)
  }

  /** No event is among them, and notifications are not switched on again. */
  predicate Undisturbed(es: seq<Event>) {
    forall i :: 0 <= i < |es| ==> !es[i].On? && !es[i].Complete?
  }

  lemma {:induction false} BlockedForever(m: Machine, es: seq<Event>)
    requires Blocked(m) && Undisturbed(es)
    ensures Exec(m, es).w.t.sent == m.w.t.sent
    decreases es
  {
    if es != [] {
      assert Blocked(Next(m, es[0])) && Next(m, es[0]).w.t.sent == m.w.t.sent;
      forall i | 0 <= i < |es| - 1
        ensures !es[1..][i].On? && !es[1..][i].Complete?
      {
        assert es[1..][i] == es[i + 1];
      }
      BlockedForever(Next(m, es[0]), es[1..]);
    }
  }

  /** A pool of a single buffer can starve: one lost TX_COMPLETE, no event is owed any more,
      and until notifications are switched on again no run ever sends what is queued. */
  lemma OneBufferStarves(row: seq<byte>, x: byte) returns (es: seq<Event>)
    requires |row| == BUFFER_LEN
    ensures Possible([row], es) && forall i :: 0 <= i < |es| && es[i].Complete? ==> es[i].count == 1
    ensures var m := After([row], es);
            && m.pc.Idle? && m.w.c.enabled && m.w.c.tx != []
            && m.w.t.completed == |m.w.t.sent| && m.w.t.stale == 0
            && forall rest :: Undisturbed(rest) ==> Exec(m, rest).w.t.sent == m.w.t.sent
  {
    var pool := [row];
    es := SwitchOn(pool);
    es := OneMoreByte(pool, es, SwitchedOn(pool), x);
    var m1 := Step(Offering(SwitchedOn(pool), x), true);
    es := OneMore(pool, es, Offering(SwitchedOn(pool), x), Main(true));
    var m2 := Next(m1, Complete(1));
    es := OneMore(pool, es, m1, Complete(1));
    var m3 := Step(m2, true);
    es := OneMore(pool, es, m2, Main(true));
    es := OneMore(pool, es, m3, Send([x]));
    var m := Next(m3, Send([x]));
    forall rest | Undisturbed(rest)
      ensures Exec(m, rest).w.t.sent == m.w.t.sent
    {
      BlockedForever(m, rest);
    }
  }

  // ---------------------------------------------------------------- buffers in flight

  /** The SoftDevice still holds packet i. */
  predicate InFlight(t: Trace, i: nat) {
    !t.dropped && t.completed <= i < |t.sent|
  }

  /** No buffer the SoftDevice still holds is offered for reuse. */
  ghost predicate Safe(m: Machine) {
    forall i: nat :: InFlight(m.w.t, i) ==> m.w.t.sent[i].buf !in m.w.c.free
  }

  ghost predicate SafeThroughout(m: Machine, es: seq<Event>)
    decreases es
  {
    Safe(m) && (es == [] || SafeThroughout(Next(m, es[0]), es[1..]))
  }

  /** The event completes no packet of this epoch, and yet there is a buffer in use, and none
      stranded, that it could free instead. */
  predicate Foreign(m: Machine, e: Event) {
    e.Complete? && !m.w.t.dropped && Advance(m.w.t, e.count).completed == m.w.t.completed
    && m.w.c.inUse != [] && Stranded(m) == 0
  }

  predicate NoneForeign(m: Machine, es: seq<Event>)
    decreases es
  {
    es == [] || (!Foreign(m, es[0]) && NoneForeign(Next(m, es[0]), es[1..]))
  }

  /** Freed buffers have not run ahead of completed packets. */
  predicate Tidy(m: Machine) {
    m.w.t.dropped || Stranded(m) >= 0
  }

  lemma InFlightNotFree(m: Machine)
    requires Inv(m) && Tidy(m)
    ensures Safe(m)
  {
    forall i: nat | InFlight(m.w.t, i)
      ensures m.w.t.sent[i].buf !in m.w.c.free
    {
      UnfreedInUse(m, i);
      PartitionFacts(|m.w.c.pool|, m.w.c.free, m.w.c.inUse, Held(m));
    }
  }

  lemma ForeignStep(m: Machine, e: Event)
    requires Inv(m) && Tidy(m) && Allowed(m, e)
    ensures Foreign(m, e) ==> !Safe(Next(m, e))
    ensures !Foreign(m, e) ==> Tidy(Next(m, e))
  {
    if e.Main? {
      StepKeepsCounts(m, e.accept);
    } else if e.Complete? {
      UnfreedCount(m);
      if Foreign(m, e) {
        ForeignFreesHeld(m, e.count);
      }
    }
  }

  lemma ForeignFreesHeld(m: Machine, count: nat)
    requires Inv(m) && Foreign(m, Complete(count))
    ensures var t, n := m.w.t, Next(m, Complete(count));
            InFlight(n.w.t, t.freed) && n.w.t.sent[t.freed].buf in n.w.c.free
  {
    var t, n := m.w.t, Next(m, Complete(count));
    PushesSucceed(m);
    UnfreedCount(m);
    assert m.w.c.inUse[0] == (m.w.c.inUse + Marking(m))[0] == Bufs(t.sent[t.freed..])[0];
    assert n.w.c.free[|m.w.c.free|] == t.sent[t.freed].buf;
  }

  /** In any run, of any number of epochs, no buffer the SoftDevice still holds is ever in the
      free queue exactly when no event that completes nothing of the current epoch finds a
      buffer in use and none stranded. */
  lemma {:induction false} ForeignCompletionExact(m: Machine, es: seq<Event>)
    requires Inv(m) && Tidy(m) && AllowedRun(m, es)
    ensures SafeThroughout(m, es) <==> NoneForeign(m, es)
    decreases es
  {
    InFlightNotFree(m);
    if es != [] {
      NextKeepsInv(m, es[0]);
      ForeignStep(m, es[0]);
      if !Foreign(m, es[0]) {
        ForeignCompletionExact(Next(m, es[0]), es[1..]);
      }
    }
  }

  /** The code fails it, for every pool: switch on, send, switch on again, send, and the
      completion of the first packet frees the buffer of the second. */
  lemma ReuseReachable(pool: seq<seq<byte>>, x: byte, y: byte) returns (es: seq<Event>)
    requires PoolOk(pool)
    ensures Possible(pool, es)
    ensures var m := After(pool, es);
            m.w.t.completed == 0 && InFlight(m.w.t, 0) && m.w.t.sent[0].payload == [y] && m.w.t.sent[0].buf in m.w.c.free
  {
    es := SwitchOn(pool);
    var m1;
    es, m1 := OneMorePacket(pool, es, SwitchedOn(pool), x);
    es := OneMore(pool, es, m1, On);
    var m2 := Next(m1, On);
    var m3;
    es, m3 := OneMorePacket(pool, es, m2, y);
    es := OneMore(pool, es, m3, Complete(1));
    var n := Next(m3, Complete(1));
    assert n.w.c.free[|n.w.c.free| - 1] == 0;
  }
}
