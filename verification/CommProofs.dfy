/** What every run of the transmit path keeps, at the granularity of single statements. */
module CommProofs {
  import opened Common
  import opened CommSpec

  lemma HeldFacts(m: Machine, buf: nat)
    requires Owned(m) && buf in Held(m)
    ensures buf < |m.w.c.pool| && buf !in m.w.c.free && buf !in m.w.c.inUse
  {
    PartitionFacts(|m.w.c.pool|, m.w.c.free, m.w.c.inUse, Held(m));
  }

  /** No statement of tx_process, and no interrupt, ever pushes on a full buffer queue. */
  lemma PushesSucceed(m: Machine)
    requires Owned(m) && LocalsOk(m)
    ensures m.w.c.inUse != [] ==> |m.w.c.free| < |m.w.c.pool|
    ensures m.pc.GiveBack? && !Void(m) ==> |m.w.c.free| < |m.w.c.pool|
    ensures Marking(m) != [] ==> |m.w.c.inUse| < |m.w.c.pool|
  {
  }

  lemma AcceptLinks(t: Trace, p: Packet)
    requires t.freed <= |t.sent|
    ensures Bufs((t.sent + [p])[t.freed..]) == Bufs(t.sent[t.freed..]) + [p.buf]
  {
    assert (t.sent + [p])[t.freed..] == t.sent[t.freed..] + [p];
  }

  lemma AcceptFlat(m: Machine, p: Packet)
    requires Streamed(m) && p.payload == InHand(m)
    ensures Joins(Flat(m.w.t.sent + [p]), [], m.w.c.tx, m.w.t.written)
  {
    FlatAppend(m.w.t.sent, p);
  }

  /** An accepted and not yet freed packet sits in the in-use queue or is being marked. */
  lemma UnfreedInUse(m: Machine, i: nat)
    requires Linked(m) && m.w.t.freed <= i < |m.w.t.sent|
    ensures m.w.t.sent[i].buf in m.w.c.inUse + Marking(m)
  {
    assert Bufs(m.w.t.sent[m.w.t.freed..])[i - m.w.t.freed] == m.w.t.sent[i].buf;
  }

  lemma AcceptKeepsStable(w: World, buf: nat, len: nat)
    requires Stable(w) && buf < |w.c.pool| && len <= BUFFER_LEN && |w.c.pool[buf]| == BUFFER_LEN
    ensures Stable(Accept(w, buf, len))
  {
  }

  // ------------------------------------------------ lines 65-76

  lemma PendingKeepsLocals(m: Machine, accept: bool)
    requires WellFormed(m.w.c) && LocalsOk(m) && Owned(m) && PendingPart(m.pc)
    requires StaleSend(m) ==> !accept
    ensures WellFormed(StepPending(m, accept).w.c) && LocalsOk(StepPending(m, accept))
  {
    if m.pc.LoadPending? && m.w.c.pend.Some? {
      HeldFacts(m, m.w.c.pend.value);
    }
  }

  /** The statements that change neither the queues nor what was sent. */
  lemma PendingQuiet(m: Machine, accept: bool)
    requires LocalsOk(m) && PendingPart(m.pc)
    requires !(m.pc.SendPending? && accept) && !(m.pc.MarkPending? && m.pc.ptr.Some?) && !m.pc.ClearPending?
    ensures var n := StepPending(m, accept);
            n.w == m.w && Held(n) == Held(m) && Marking(n) == Marking(m) && InHand(n) == InHand(m)
  {
  }

  lemma PendingKeepsOwned(m: Machine, accept: bool)
    requires LocalsOk(m) && Owned(m) && PendingPart(m.pc)
    ensures Owned(StepPending(m, accept))
  {
    var n := StepPending(m, accept);
    if m.pc.MarkPending? && m.pc.ptr.Some? {
      PushesSucceed(m);
      assert n.w.c.inUse == m.w.c.inUse + Held(m) && Held(n) == [];
    } else {
      assert n.w.c.free == m.w.c.free && n.w.c.inUse == m.w.c.inUse && n.w.c.pool == m.w.c.pool;
      assert Held(n) == Held(m);
    }
  }

  lemma AcceptTracks(inUse: seq<nat>, t: Trace, p: Packet)
    requires t.freed <= |t.sent| && Tracks(inUse, [], t)
    ensures Tracks(inUse, [p.buf], t.(sent := t.sent + [p]))
  {
    AcceptLinks(t, p);
  }

  lemma MarkTracks(inUse: seq<nat>, marking: seq<nat>, t: Trace)
    requires t.freed <= |t.sent| && Tracks(inUse, marking, t)
    ensures Tracks(inUse + marking, [], t)
  {
  }

  lemma PendingKeepsLinked(m: Machine, accept: bool)
    requires LocalsOk(m) && Owned(m) && Linked(m) && PendingPart(m.pc) && (StaleSend(m) ==> !accept)
    ensures Linked(StepPending(m, accept))
  {
    var c, t, n := m.w.c, m.w.t, StepPending(m, accept);
    if m.pc.SendPending? && accept && m.pc.ptr.Some? {
      AcceptTracks(c.inUse, t, Packet(c.pend.value, InHand(m)));
    } else if m.pc.MarkPending? && m.pc.ptr.Some? {
      PushesSucceed(m);
      MarkTracks(c.inUse, Marking(m), t);
    } else if m.pc.SendPending? && accept {
      assert n.w.t.sent == t.sent && n.w.t.freed == t.freed && n.w.c == c && Marking(n) == [];
    } else if m.pc.ClearPending? {
      assert n.w.t == t && n.w.c.inUse == c.inUse && Marking(n) == [];
    } else {
      PendingQuiet(m, accept);
    }
  }

  lemma PendingKeepsStable(m: Machine, accept: bool)
    requires WellFormed(m.w.c) && LocalsOk(m) && Stable(m.w) && PendingPart(m.pc)
    ensures Stable(StepPending(m, accept).w)
  {
    var n := StepPending(m, accept);
    if m.pc.SendPending? && accept && m.pc.ptr.Some? {
      AcceptKeepsStable(m.w, m.pc.ptr.value, m.pc.len);
    } else {
      assert n.w.t.sent == m.w.t.sent && n.w.t.freed == m.w.t.freed && n.w.c.pool == m.w.c.pool;
    }
  }

  lemma PendingKeepsStreamed(m: Machine, accept: bool)
    requires LocalsOk(m) && Streamed(m) && PendingPart(m.pc) && (StaleSend(m) ==> !accept)
    ensures Streamed(StepPending(m, accept))
  {
    var n := StepPending(m, accept);
    if m.pc.SendPending? && accept && m.pc.ptr.Some? {
      AcceptFlat(m, Packet(m.w.c.pend.value, InHand(m)));
      assert InHand(n) == [];
    } else {
      assert n.w.t.sent == m.w.t.sent && n.w.t.written == m.w.t.written && n.w.c.tx == m.w.c.tx;
      assert InHand(n) == InHand(m);
    }
  }

  // ------------------------------------------------ lines 79-95

  lemma FetchKeepsLocals(m: Machine)
    requires WellFormed(m.w.c) && LocalsOk(m) && Owned(m) && FetchPart(m.pc)
    ensures WellFormed(StepFetch(m).w.c) && LocalsOk(StepFetch(m))
  {
  }

  lemma FetchKeepsOwned(m: Machine)
    requires LocalsOk(m) && Owned(m) && FetchPart(m.pc)
    ensures Owned(StepFetch(m))
  {
    var c, n := m.w.c, StepFetch(m);
    PushesSucceed(m);
    assert m.pc.TakeFree? && c.free != [] ==> c.free == Held(n) + n.w.c.free;
    assert m.pc.GiveBack? && !Void(m) ==> n.w.c.free == c.free + Held(m);
  }

  /** Fetching marks nothing and sends nothing. */
  lemma FetchQuiet(m: Machine)
    requires FetchPart(m.pc)
    ensures var n := StepFetch(m);
            n.w.t == m.w.t && n.w.c.inUse == m.w.c.inUse && Marking(n) == [] && Marking(m) == []
  {
  }

  lemma FetchKeepsLinked(m: Machine)
    requires Linked(m) && FetchPart(m.pc)
    ensures Linked(StepFetch(m))
  {
    FetchQuiet(m);
  }

  lemma FetchKeepsStable(m: Machine)
    requires WellFormed(m.w.c) && LocalsOk(m) && Owned(m) && Linked(m) && Stable(m.w) && FetchPart(m.pc)
    ensures Stable(StepFetch(m).w)
  {
    // the only write into the pool goes to a row that no unfreed packet uses
    if m.pc.ReadQueue? && m.pc.readLen <= |m.w.c.tx| {
      HeldFacts(m, m.pc.buf);
      forall i | m.w.t.freed <= i < |m.w.t.sent|
        ensures m.w.t.sent[i].buf != m.pc.buf
      {
        UnfreedInUse(m, i);
      }
    }
  }

  lemma JoinsRead(sent: seq<byte>, queued: seq<byte>, written: seq<byte>, len: nat)
    requires Joins(sent, [], queued, written) && len <= |queued|
    ensures Joins(sent, queued[..len], queued[len..], written)
  {
    assert queued == queued[..len] + queued[len..];
  }

  lemma ReadInHand(m: Machine)
    requires WellFormed(m.w.c) && LocalsOk(m) && Owned(m) && m.pc.ReadQueue? && m.pc.readLen <= |m.w.c.tx|
    ensures InHand(m) == [] && InHand(StepFetch(m)) == m.w.c.tx[..m.pc.readLen]
  {
    HeldFacts(m, m.pc.buf);
  }

  lemma FetchKeepsStreamed(m: Machine)
    requires WellFormed(m.w.c) && LocalsOk(m) && Owned(m) && Streamed(m) && FetchPart(m.pc)
    ensures Streamed(StepFetch(m))
  {
    var n := StepFetch(m);
    if m.pc.ReadQueue? && m.pc.readLen <= |m.w.c.tx| {
      ReadInHand(m);
      JoinsRead(Flat(m.w.t.sent), m.w.c.tx, m.w.t.written, m.pc.readLen);
    } else {
      assert n.w.t == m.w.t && n.w.c.tx == m.w.c.tx;
      assert InHand(n) == InHand(m);
    }
  }

  // ------------------------------------------------ lines 97-108

  predicate OfferPart(pc: Pc) {
    pc.SendNew? || pc.MarkNew? || pc.SetPending? || pc.SetPendingLen?
  }

  lemma OfferKeepsLocals(m: Machine, accept: bool)
    requires WellFormed(m.w.c) && LocalsOk(m) && Owned(m) && OfferPart(m.pc)
    ensures WellFormed(StepOffer(m, accept).w.c) && LocalsOk(StepOffer(m, accept))
  {
  }

  lemma OfferKeepsOwned(m: Machine, accept: bool)
    requires LocalsOk(m) && Owned(m) && OfferPart(m.pc)
    ensures Owned(StepOffer(m, accept))
  {
    var n := StepOffer(m, accept);
    PushesSucceed(m);
    assert m.pc.MarkNew? ==> n.w.c.inUse == m.w.c.inUse + Held(m);
  }

  /** The statements that keep a refused chunk mark nothing and send nothing. */
  lemma OfferQuiet(m: Machine, accept: bool)
    requires OfferPart(m.pc) && !m.pc.MarkNew? && !(m.pc.SendNew? && accept)
    ensures var n := StepOffer(m, accept);
            n.w.t == m.w.t && n.w.c.inUse == m.w.c.inUse && Marking(n) == [] && Marking(m) == []
  {
  }

  lemma OfferKeepsLinked(m: Machine, accept: bool)
    requires LocalsOk(m) && Owned(m) && Linked(m) && OfferPart(m.pc)
    ensures Linked(StepOffer(m, accept))
  {
    if m.pc.SendNew? && accept {
      AcceptTracks(m.w.c.inUse, m.w.t, Packet(m.pc.buf, InHand(m)));
    } else if m.pc.MarkNew? {
      PushesSucceed(m);
      MarkTracks(m.w.c.inUse, Marking(m), m.w.t);
    } else {
      OfferQuiet(m, accept);
    }
  }

  lemma OfferKeepsStable(m: Machine, accept: bool)
    requires WellFormed(m.w.c) && LocalsOk(m) && Owned(m) && Stable(m.w) && OfferPart(m.pc)
    ensures Stable(StepOffer(m, accept).w)
  {
    var n := StepOffer(m, accept);
    if m.pc.SendNew? {
      HeldFacts(m, m.pc.buf);
      AcceptKeepsStable(m.w, m.pc.buf, m.pc.len);
    } else {
      assert n.w.t.sent == m.w.t.sent && n.w.t.freed == m.w.t.freed && n.w.c.pool == m.w.c.pool;
    }
  }

  lemma OfferKeepsStreamed(m: Machine, accept: bool)
    requires WellFormed(m.w.c) && LocalsOk(m) && Owned(m) && Streamed(m) && OfferPart(m.pc)
    ensures Streamed(StepOffer(m, accept))
  {
    if m.pc.SendNew? && accept {
      AcceptFlat(m, Packet(m.pc.buf, InHand(m)));
      assert InHand(StepOffer(m, accept)) == [];
    } else {
      assert InHand(StepOffer(m, accept)) == InHand(m);
    }
  }

  lemma PendingKeepsInv(m: Machine, accept: bool, n: Machine)
    requires Inv(m) && (StaleSend(m) ==> !accept) && PendingPart(m.pc) && n == StepPending(m, accept)
    ensures Inv(n)
  {
    PendingKeepsLocals(m, accept);
    PendingKeepsOwned(m, accept);
    PendingKeepsLinked(m, accept);
    PendingKeepsStable(m, accept);
    PendingKeepsStreamed(m, accept);
  }

  lemma FetchKeepsInv(m: Machine, n: Machine)
    requires Inv(m) && FetchPart(m.pc) && n == StepFetch(m)
    ensures Inv(n)
  {
    FetchKeepsLocals(m);
    FetchKeepsOwned(m);
    FetchKeepsLinked(m);
    FetchKeepsStable(m);
    FetchKeepsStreamed(m);
  }

  lemma OfferKeepsInv(m: Machine, accept: bool, n: Machine)
    requires Inv(m) && OfferPart(m.pc) && n == StepOffer(m, accept)
    ensures Inv(n)
  {
    OfferKeepsLocals(m, accept);
    OfferKeepsOwned(m, accept);
    OfferKeepsLinked(m, accept);
    OfferKeepsStable(m, accept);
    OfferKeepsStreamed(m, accept);
  }

  lemma CallKeepsInv(m: Machine, n: Machine)
    requires Inv(m) && m.pc.Idle? && n == Step(m, false)
    ensures Inv(n)
  {
  }

  lemma StepKeepsInv(m: Machine, accept: bool)
    requires Inv(m) && (StaleSend(m) ==> !accept)
    ensures Inv(Step(m, accept))
  {
    var n := Step(m, accept);
    if PendingPart(m.pc) {
      PendingKeepsInv(m, accept, n);
    } else if FetchPart(m.pc) {
      FetchKeepsInv(m, n);
    } else if OfferPart(m.pc) {
      OfferKeepsInv(m, accept, n);
    } else {
      CallKeepsInv(m, n);
    }
  }

  // ---------------------------------------------------------------- interrupts and runs

  lemma CompleteKeepsOwned(m: Machine, count: nat)
    requires LocalsOk(m) && Owned(m)
    ensures Owned(Next(m, Complete(count)))
  {
    var c := m.w.c;
    assert Held(Next(m, Complete(count))) == Held(m);
    if c.inUse != [] {
      PushesSucceed(m);
      assert c.inUse == [c.inUse[0]] + c.inUse[1..];
      assert Next(m, Complete(count)).w.c.free == c.free + [c.inUse[0]];
    }
  }

  lemma CompleteKeepsLinked(m: Machine, count: nat)
    requires Linked(m)
    ensures Linked(Next(m, Complete(count)))
  {
    var c, t, n := m.w.c, m.w.t, Next(m, Complete(count));
    assert Marking(n) == Marking(m);
    if c.inUse != [] {
      assert Bufs(t.sent[t.freed..])[1..] == Bufs(t.sent[t.freed + 1..]);
      assert n.w.c.inUse + Marking(n) == (c.inUse + Marking(m))[1..];
    }
  }

  lemma CompleteKeepsLocals(m: Machine, count: nat)
    requires WellFormed(m.w.c) && LocalsOk(m) && Owned(m)
    ensures WellFormed(Next(m, Complete(count)).w.c) && LocalsOk(Next(m, Complete(count)))
  {
  }

  lemma CompleteKeepsStable(m: Machine, count: nat)
    requires Linked(m) && Stable(m.w)
    ensures Stable(Next(m, Complete(count)).w)
  {
    var n := Next(m, Complete(count));
    assert |m.w.t.sent| - m.w.t.freed >= |m.w.c.inUse|;
    assert n.w.t.sent == m.w.t.sent && n.w.c.pool == m.w.c.pool && n.w.t.freed >= m.w.t.freed;
  }

  lemma CompleteKeepsStreamed(m: Machine, count: nat)
    requires Streamed(m)
    ensures Streamed(Next(m, Complete(count)))
  {
    assert InHand(Next(m, Complete(count))) == InHand(m);
  }

  lemma CompleteKeepsInv(m: Machine, count: nat)
    requires Inv(m)
    ensures Inv(Next(m, Complete(count)))
  {
    CompleteKeepsOwned(m, count);
    CompleteKeepsLinked(m, count);
    CompleteKeepsLocals(m, count);
    CompleteKeepsStable(m, count);
    CompleteKeepsStreamed(m, count);
  }

  /** Switching off touches neither queues nor buffers. */
  lemma OffIsQuiet(m: Machine)
    ensures var n := Next(m, Off);
            && Held(n) == Held(m) && Marking(n) == Marking(m) && InHand(n) == InHand(m)
            && n.w.t == m.w.t && n.pc == m.pc && n.w.c == m.w.c.(enabled := false)
  {
  }

  lemma OffKeepsInv(m: Machine)
    requires Inv(m)
    ensures Inv(Next(m, Off))
  {
    var n := Next(m, Off);
    OffIsQuiet(m);
    assert WellFormed(n.w.c) && LocalsOk(n);
    assert Owned(n) && Linked(n) && Streamed(n);
    assert Stable(n.w);
  }

  lemma DropKeepsInv(m: Machine)
    requires Inv(m)
    ensures Inv(Next(m, Drop))
  {
    var n := Next(m, Drop);
    assert Held(n) == Held(m) && Marking(n) == Marking(m) && InHand(n) == InHand(m);
  }

  /** A reset leaves all buffers free, and nothing in hand that was not. */
  lemma OnKeepsInv(m: Machine)
    requires Inv(m) && !Exposed(m.pc)
    ensures Inv(Next(m, On))
  {
    var n := Next(m, On);
    OnClears(m);
    IotaCovers(|m.w.c.pool|);
    assert WellFormed(n.w.c) && LocalsOk(n);
    assert Owned(n) && Linked(n) && Stable(n.w);
    assert Joins([], [], [], []) && Flat(n.w.t.sent) == [];
  }

  lemma OnClears(m: Machine)
    requires !Exposed(m.pc)
    ensures var n := Next(m, On); Held(n) == [] && Marking(n) == [] && InHand(n) == []
  {
  }

  lemma OnBreaks(m: Machine)
    requires Exposed(m.pc)
    ensures !(Owned(Next(m, On)) && LocalsOk(Next(m, On)))
  {
    var n := Next(m, On);
    if !m.pc.MarkPending? {
      assert |n.w.c.free| == |n.w.c.pool| && |Held(n)| == 1;
    }
  }

  /** NOTIFICATION_ON re-establishes everything exactly when it does not fall on an exposed
      statement, whatever else it interrupts. */
  lemma NotificationOnExact(m: Machine)
    requires Inv(m)
    ensures Inv(Next(m, On)) <==> !Exposed(m.pc)
  {
    if Exposed(m.pc) {
      OnBreaks(m);
    } else {
      OnKeepsInv(m);
    }
  }

  lemma NextKeepsInv(m: Machine, e: Event)
    requires Inv(m) && Allowed(m, e)
    ensures Inv(Next(m, e))
  {
    match e
    case Main(accept) => StepKeepsInv(m, accept);
    case Complete(count) => CompleteKeepsInv(m, count);
    case On => OnKeepsInv(m);
    case Off => OffKeepsInv(m);
    case Drop => DropKeepsInv(m);
    case Send(data) => SendKeepsInv(m, data);
  }

  lemma JoinsMore(sent: seq<byte>, hand: seq<byte>, queued: seq<byte>, written: seq<byte>, data: seq<byte>)
    requires Joins(sent, hand, queued, written)
    ensures Joins(sent, hand, queued + data, written + data)
  {
  }

  lemma SendKeepsInv(m: Machine, data: seq<byte>)
    requires Inv(m) && m.pc.Idle?
    ensures Inv(Next(m, Send(data)))
  {
    var n := Next(m, Send(data));
    if n != m {
      JoinsMore(Flat(m.w.t.sent), InHand(m), m.w.c.tx, m.w.t.written, data);
      assert InHand(n) == InHand(m) && Held(n) == Held(m) && Marking(n) == Marking(m);
      assert Streamed(n) && Stable(n.w) && Linked(n);
    }
  }

  lemma {:induction false} RunKeepsInv(m: Machine, es: seq<Event>)
    requires Inv(m) && AllowedRun(m, es)
    ensures Inv(Exec(m, es))
    decreases es
  {
    if es != [] {
      NextKeepsInv(m, es[0]);
      RunKeepsInv(Next(m, es[0]), es[1..]);
    }
  }

  lemma InitInv(pool: seq<seq<byte>>)
    requires |pool| > 0 && forall i :: 0 <= i < |pool| ==> |pool[i]| == BUFFER_LEN
    ensures Inv(Machine(Init(pool), Idle))
  {
    IotaCovers(|pool|);
  }
}
