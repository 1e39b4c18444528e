/** What a NOTIFICATION_ON does to a call of BLE_COMM_tx_process that it interrupts. */
module CommResets {
  import opened Common
  import opened CommSpec
  import opened CommProofs
  import opened CommTheorems

  // ---------------------------------------------------------------- where a reset breaks things

  /** The interrupted call has run to its end after the reset. */
  function Finished(m: Machine, acceptPending: bool, acceptNew: bool): Machine {
    Walk(Next(m, On), acceptPending, acceptNew, 12)
  }

  /** When the interrupted call has come to its end, the ownership of the buffers is broken
      exactly if the reset fell on an exposed point, whatever the SoftDevice answers. The
      stream is broken exactly if the reset found a chunk read and not yet offered or kept, or
      the pending buffer inside the call that offers it and that call succeeds. hvx accepts a
      NULL pointer exactly if the reset fell between the test of the pending pointer and its
      evaluation for that call, and the call succeeds. */
  lemma ResetExact(m: Machine, acceptPending: bool, acceptNew: bool)
    requires Inv(m)
    ensures var n, pc := Finished(m, acceptPending, acceptNew), m.pc;
            && n.pc.Idle?
            && (Owned(n) <==> !Exposed(pc))
            && (Streamed(n) <==> !(pc.SendNew? || pc.SetPending? || (pc.SendPending? && pc.ptr.Some? && acceptPending)))
            && n.w.t.nulls == m.w.t.nulls + if SendsNull(pc) && acceptPending then 1 else 0
  {
    if m.pc.SendNew? || m.pc.SetPending? {
      ResetWithChunk(m, acceptPending, acceptNew);
    } else if m.pc.MarkNew? {
      ResetWhileMarkingNew(m, acceptPending, acceptNew);
    } else if m.pc.MarkPending? && m.pc.ptr.Some? {
      ResetWhileMarking(m, acceptPending, acceptNew);
    } else if m.pc.SendPending? && m.pc.ptr.Some? && acceptPending {
      ResetInCall(m, acceptNew);
    } else {
      ResetHarmless(m, acceptPending, acceptNew);
    }
  }

  /** After a reset here hvx is called with NULL. */
  predicate SendsNull(pc: Pc) {
    pc.LoadPending? || (pc.SendPending? && pc.ptr.None?)
  }

  /** Elsewhere the call finds nothing left to do. */
  lemma ResetHarmless(m: Machine, acceptPending: bool, acceptNew: bool)
    requires Inv(m) && !Exposed(m.pc) && !(m.pc.SendPending? && m.pc.ptr.Some? && acceptPending)
    ensures var n := Finished(m, acceptPending, acceptNew);
            && n.pc.Idle? && Owned(n) && Streamed(n)
            && n.w.t.nulls == m.w.t.nulls + if SendsNull(m.pc) && acceptPending then 1 else 0
  {
    var n := Next(m, On);
    OnKeepsInv(m);
    if m.pc.LoadPending? {
      var n1 := n.(pc := SendPending(None, n.w.c.pendLen));
      assert Step(n, acceptNew) == n1;
      assert Walk(n, acceptPending, acceptNew, 12) == Walk(n1, acceptPending, acceptNew, 11);
      StepKeepsInv(n, acceptNew);
      NullCall(n1, acceptPending, acceptNew, 11);
    } else if m.pc.SendPending? && m.pc.ptr.None? {
      NullCall(n, acceptPending, acceptNew, 12);
    } else {
      EndsEmpty(n, acceptPending, acceptNew, 12);
    }
  }

  /** With nothing queued and nothing pending the rest of the call changes no trace. */
  lemma EndsEmpty(n: Machine, acceptPending: bool, acceptNew: bool, k: nat)
    requires Inv(n) && n.w.c.tx == [] && n.w.c.pend.None? && !Exposed(n.pc) && k >= 5
    requires !n.pc.LoadPending? && (n.pc.SendPending? ==> !acceptPending)
    ensures var z := Walk(n, acceptPending, acceptNew, k);
            z.pc.Idle? && z.w.t == n.w.t && Owned(z) && Streamed(z)
    decreases Rank(n.pc)
  {
    if !n.pc.Idle? {
      var accept := if n.pc.SendPending? then acceptPending else acceptNew;
      var n1 := Step(n, accept);
      EmptyStep(n, accept);
      StepKeepsInv(n, accept);
      assert Walk(n, acceptPending, acceptNew, k) == Walk(n1, acceptPending, acceptNew, k - 1);
      EndsEmptySoon(n1, acceptPending, acceptNew, k - 1);
    }
  }

  /** At most this many statements are left. */
  function Rank(pc: Pc): nat {
    match pc
    case Idle => 0
    case LoadMark => 4
    case MarkPending(_) => 3
    case ClearPending => 2
    case CheckPending => 2
    case CheckQueue => 1
    case TakeFree(_) => 3
    case ReadQueue(_, _) => 2
    case _ => 1
  }

  lemma EmptyStep(n: Machine, accept: bool)
    requires LocalsOk(n) && WellFormed(n.w.c) && n.w.c.tx == [] && n.w.c.pend.None? && !Exposed(n.pc)
    requires !n.pc.Idle? && !n.pc.LoadPending? && (n.pc.SendPending? ==> !accept)
    ensures var n1 := Step(n, accept);
            && n1.w.t == n.w.t && n1.w.c.tx == [] && n1.w.c.pend.None? && !Exposed(n1.pc)
            && !n1.pc.LoadPending? && !n1.pc.SendPending? && Rank(n1.pc) < Rank(n.pc)
  {
  }

  lemma {:induction false} EndsEmptySoon(n: Machine, acceptPending: bool, acceptNew: bool, k: nat)
    requires Inv(n) && n.w.c.tx == [] && n.w.c.pend.None? && !Exposed(n.pc) && k >= Rank(n.pc)
    requires !n.pc.LoadPending? && !n.pc.SendPending?
    ensures var z := Walk(n, acceptPending, acceptNew, k);
            z.pc.Idle? && z.w.t == n.w.t && Owned(z) && Streamed(z)
    decreases Rank(n.pc)
  {
    if !n.pc.Idle? {
      var n1 := Step(n, acceptNew);
      EmptyStep(n, acceptNew);
      EmptyKeepsInv(n, n1, acceptNew);
      EndsEmptySoon(n1, acceptPending, acceptNew, k - 1);
      assert Walk(n, acceptPending, acceptNew, k) == Walk(n1, acceptPending, acceptNew, k - 1);
    }
  }

  lemma EmptyKeepsInv(n: Machine, n1: Machine, accept: bool)
    requires Inv(n) && n1 == Step(n, accept) && !n.pc.SendPending?
    ensures Inv(n1)
  {
    StepKeepsInv(n, accept);
  }

  /** hvx called with NULL. */
  lemma NullCall(n: Machine, acceptPending: bool, acceptNew: bool, k: nat)
    requires Inv(n) && n.pc.SendPending? && n.pc.ptr.None? && n.w.c.pend.None? && n.w.c.tx == [] && k >= 6
    ensures var z := Walk(n, acceptPending, acceptNew, k);
            z.pc.Idle? && Owned(z) && Streamed(z) && z.w.t.nulls == n.w.t.nulls + if acceptPending then 1 else 0
  {
    if acceptPending {
      var n1 := Step(n, true);
      StepKeepsInv(n, true);
      assert Walk(n, acceptPending, acceptNew, k) == Walk(n1, acceptPending, acceptNew, k - 1);
      EndsEmptySoon(n1, acceptPending, acceptNew, k - 1);
    } else {
      EndsEmpty(n, acceptPending, acceptNew, k);
    }
  }

  /** The chunk of the old epoch is sent or kept for the new one, and its buffer is free. */
  lemma ResetWithChunk(m: Machine, acceptPending: bool, acceptNew: bool)
    requires Inv(m) && (m.pc.SendNew? || m.pc.SetPending?)
    ensures var n := Finished(m, acceptPending, acceptNew);
            n.pc.Idle? && !Owned(n) && !Streamed(n) && n.w.t.nulls == m.w.t.nulls
  {
    var n1 := Next(m, On);
    if m.pc.SetPending? {
      KeptChunk(m, n1, acceptPending, acceptNew, 12);
    } else if acceptNew {
      SentChunk(m, acceptPending);
    } else {
      KeptChunk(m, Step(n1, false), acceptPending, acceptNew, 11);
    }
  }

  /** A chunk that stays pending, from SetPending on. */
  lemma KeptChunk(m: Machine, n: Machine, acceptPending: bool, acceptNew: bool, k: nat)
    requires Inv(m) && (m.pc.SendNew? || m.pc.SetPending?) && k >= 2
    requires n == Machine(NotificationOn(m.w), SetPending(m.pc.buf, m.pc.len))
    ensures var z := Walk(n, acceptPending, acceptNew, k);
            z.pc.Idle? && !Owned(z) && !Streamed(z) && z.w.t.nulls == m.w.t.nulls
  {
    HeldFacts(m, m.pc.buf);
    var buf, len, w := m.pc.buf, m.pc.len, n.w;
    var n1 := Machine(w.(c := w.c.(pend := Some(buf))), SetPendingLen(buf, len));
    var z := Machine(w.(c := w.c.(pend := Some(buf), pendLen := len)), Idle);
    assert Step(n, acceptNew) == n1 && Step(n1, acceptNew) == z;
    assert Walk(n, acceptPending, acceptNew, k) == Walk(n1, acceptPending, acceptNew, k - 1) == z;
    BothPlaces(z);
    KeptAlone(z);
  }

  lemma KeptAlone(z: Machine)
    requires InHand(z) != [] && z.w.t.written == []
    ensures !Streamed(z)
  {
  }

  /** All buffers are free, and yet there is one elsewhere. */
  lemma BothPlaces(z: Machine)
    requires |z.w.c.free| == |z.w.c.pool| && |z.w.c.inUse| + |Held(z)| > 0
    ensures !Owned(z)
  {
  }

  lemma SentChunk(m: Machine, acceptPending: bool)
    requires Inv(m) && m.pc.SendNew?
    ensures var n := Finished(m, acceptPending, true);
            n.pc.Idle? && !Owned(n) && !Streamed(n) && n.w.t.nulls == m.w.t.nulls
  {
    HeldFacts(m, m.pc.buf);
    var w, p := NotificationOn(m.w), Packet(m.pc.buf, InHand(m));
    var n2 := Step(Next(m, On), true);
    assert n2 == Machine(w.(t := w.t.(sent := [p])), MarkNew(m.pc.buf));
    var z := Step(n2, true);
    assert Finished(m, acceptPending, true) == Walk(n2, acceptPending, true, 11) == z;
    SentAlone(z, p);
    BothPlaces(z);
  }

  /** A packet of bytes that nobody queued in this epoch. */
  lemma SentAlone(z: Machine, p: Packet)
    requires z.w.t.sent == [p] && p.payload != [] && z.w.t.written == []
    ensures !Streamed(z)
  {
    FlatAppend([], p);
    assert [] + [p] == [p] && |Flat([p])| > 0;
  }

  /** The buffer of a packet just sent is marked as in use, and free. */
  lemma ResetWhileMarkingNew(m: Machine, acceptPending: bool, acceptNew: bool)
    requires Inv(m) && m.pc.MarkNew?
    ensures var n := Finished(m, acceptPending, acceptNew);
            n.pc.Idle? && !Owned(n) && Streamed(n) && n.w.t.nulls == m.w.t.nulls
  {
    var n := Step(Next(m, On), acceptNew);
    assert Finished(m, acceptPending, acceptNew) == Walk(n, acceptPending, acceptNew, 11) == n;
    BothPlaces(n);
    assert InHand(n) == [];
  }

  /** So is the pending buffer, whose address was evaluated for the push before the reset. */
  lemma ResetWhileMarking(m: Machine, acceptPending: bool, acceptNew: bool)
    requires Inv(m) && m.pc.MarkPending? && m.pc.ptr.Some?
    ensures var n := Finished(m, acceptPending, acceptNew);
            n.pc.Idle? && !Owned(n) && Streamed(n) && n.w.t.nulls == m.w.t.nulls
  {
    var n1 := Step(Next(m, On), acceptNew);
    var n2 := Step(n1, acceptNew);
    var n3 := Step(n2, acceptNew);
    assert n1.pc.ClearPending? && n2.pc.CheckQueue? && n3.pc.Idle?;
    assert Finished(m, acceptPending, acceptNew) == Walk(n1, acceptPending, acceptNew, 11)
        == Walk(n2, acceptPending, acceptNew, 10) == Walk(n3, acceptPending, acceptNew, 9) == n3;
    BothPlaces(n3);
    assert InHand(n3) == [];
  }

  /** The pending bytes of the old epoch are sent in the new one; their buffer is free. */
  lemma ResetInCall(m: Machine, acceptNew: bool)
    requires Inv(m) && m.pc.SendPending? && m.pc.ptr.Some?
    ensures var n := Finished(m, true, acceptNew);
            n.pc.Idle? && Owned(n) && !Streamed(n) && n.w.t.nulls == m.w.t.nulls
  {
    var w, p := NotificationOn(m.w), Packet(m.pc.ptr.value, Payload(m.w.c, m.pc.ptr.value, m.pc.len));
    var n1 := Machine(w.(t := w.t.(sent := [p])), LoadMark);
    assert Step(Next(m, On), true) == n1;
    assert Finished(m, true, acceptNew) == Walk(n1, true, acceptNew, 11);
    WalkMarked(n1, acceptNew, 11);
    SentAlone(n1.(pc := Idle), p);
    IotaCovers(|w.c.pool|);
  }

  /** Nothing is pending any more, so nothing is marked. */
  lemma WalkMarked(n: Machine, acceptNew: bool, k: nat)
    requires n.pc.LoadMark? && n.w.c.pend.None? && n.w.c.tx == [] && k >= 5
    ensures Walk(n, true, acceptNew, k) == n.(pc := Idle)
  {
    var n2, n3, n4 := n.(pc := MarkPending(None)), n.(pc := ClearPending), n.(pc := CheckQueue);
    assert Step(n, acceptNew) == n2 && Step(n2, acceptNew) == n3 && Step(n3, acceptNew) == n4;
    assert Step(n4, acceptNew) == n.(pc := Idle);
    assert Walk(n, true, acceptNew, k) == Walk(n2, true, acceptNew, k - 1) == Walk(n3, true, acceptNew, k - 2)
        == Walk(n4, true, acceptNew, k - 3) == Walk(n.(pc := Idle), true, acceptNew, k - 4);
  }

  // ---------------------------------------------------------------- runs that get there

  /** Between calls, switched on, with an empty byte queue and nothing pending. */
  predicate Quiet(m: Machine) {
    m.pc.Idle? && m.w.c.enabled && m.w.c.tx == [] && m.w.c.pend.None? && m.w.c.free != []
    && WellFormed(m.w.c) && m.w.c.free[0] < |m.w.c.pool|
  }

  /** One byte on its way, in the first free buffer. */
  function Offering(m: Machine, x: byte): Machine
    requires Quiet(m)
  {
    var c, buf := m.w.c, m.w.c.free[0];
    Machine(World(c.(free := c.free[1..], pool := c.pool[buf := Overwrite(c.pool[buf], [x])]),
                  m.w.t.(written := m.w.t.written + [x])),
            SendNew(buf, 1))
  }

  /** Send a byte, up to the call of hvx. */
  function UpToSend(x: byte): seq<Event> {
    [Send([x]), Main(false), Main(false), Main(false), Main(false), Main(false)]
  }

  lemma Unroll(m: Machine, e: Event, es: seq<Event>)
    ensures Exec(m, [e] + es) == Exec(Next(m, e), es)
    ensures AllowedRun(m, [e] + es) <==> Allowed(m, e) && AllowedRun(Next(m, e), es)
  {
    assert ([e] + es)[1..] == es;
  }

  lemma ExecConcat(m: Machine, a: seq<Event>, b: seq<Event>)
    ensures Exec(m, a + b) == Exec(Exec(m, a), b)
    ensures AllowedRun(m, a) && AllowedRun(Exec(m, a), b) ==> AllowedRun(m, a + b)
    decreases a
  {
    if a == [] {
      assert a + b == b;
    } else {
      assert (a + b)[1..] == a[1..] + b;
      ExecConcat(Next(m, a[0]), a[1..], b);
    }
  }

  ghost predicate Reaches(pool: seq<seq<byte>>, es: seq<Event>, m: Machine) {
    Possible(pool, es) && After(pool, es) == m
  }

  /** A possible run, one more event. */
  lemma OneMore(pool: seq<seq<byte>>, es: seq<Event>, m: Machine, e: Event) returns (more: seq<Event>)
    requires Reaches(pool, es, m) && Allowed(m, e)
    ensures Reaches(pool, more, Next(m, e)) && more == es + [e]
  {
    more := es + [e];
    ExecConcat(Machine(Init(pool), Idle), es, [e]);
    Unroll(m, e, []);
  }

  /** A possible run, one more byte up to the call of hvx. */
  lemma OneMoreByte(pool: seq<seq<byte>>, es: seq<Event>, m: Machine, x: byte) returns (more: seq<Event>)
    requires Reaches(pool, es, m) && Quiet(m)
    ensures Reaches(pool, more, Offering(m, x)) && more == es + UpToSend(x)
  {
    var go, t := Main(false), m.w.t.(written := m.w.t.written + [x]);
    var m1 := Machine(World(m.w.c.(tx := [x]), t), Idle);
    var m5 := Machine(World(m1.w.c.(free := m.w.c.free[1..]), t), ReadQueue(m.w.c.free[0], 1));
    assert [] + [x] == [x] && [x][..1] == [x] && [x][1..] == [];
    more := OneMore(pool, es, m, Send([x]));
    more := OneMore(pool, more, m1, go);
    more := OneMore(pool, more, m1.(pc := CheckPending), go);
    more := OneMore(pool, more, m1.(pc := CheckQueue), go);
    more := OneMore(pool, more, m1.(pc := TakeFree(1)), go);
    more := OneMore(pool, more, m5, go);
  }

  /** Switched on for the first time. */
  function SwitchedOn(pool: seq<seq<byte>>): Machine {
    Machine(NotificationOn(Init(pool)), Idle)
  }

  lemma SwitchOn(pool: seq<seq<byte>>) returns (es: seq<Event>)
    requires PoolOk(pool)
    ensures Reaches(pool, es, SwitchedOn(pool)) && Quiet(SwitchedOn(pool)) && es == [On]
  {
    es := OneMore(pool, [], Machine(Init(pool), Idle), On);
  }

  /** A refused chunk is pending, and its second offer has been evaluated. */
  lemma ToSecondOffer(pool: seq<seq<byte>>, es: seq<Event>, m: Machine)
    returns (more: seq<Event>, n: Machine)
    requires Reaches(pool, es, m) && m.pc.SendNew? && m.w.c.enabled
    ensures Reaches(pool, more, n) && n.pc.LoadPending? && n.w.c.pend == Some(m.pc.buf)
    ensures n.w.t == m.w.t
  {
    var go, buf, len := Main(false), m.pc.buf, m.pc.len;
    var m1 := m.(pc := SetPending(buf, len));
    var m2 := Machine(m.w.(c := m.w.c.(pend := Some(buf))), SetPendingLen(buf, len));
    var m3 := Machine(m2.w.(c := m2.w.c.(pendLen := len)), Idle);
    more := OneMore(pool, es, m, go);
    more := OneMore(pool, more, m1, go);
    more := OneMore(pool, more, m2, go);
    more := OneMore(pool, more, m3, go);
    more := OneMore(pool, more, m3.(pc := CheckPending), go);
    n := m3.(pc := LoadPending);
  }

  /** For every pool, one run to each point at which a reset does harm: the offer of a new
      chunk, its marking, its being kept, the marking and the offer of the pending buffer. */
  lemma BreakingRuns(pool: seq<seq<byte>>, x: byte)
    returns (send: seq<Event>, mark: seq<Event>, keep: seq<Event>, markPending: seq<Event>, sendPending: seq<Event>)
    requires PoolOk(pool)
    ensures Possible(pool, send) && After(pool, send).pc.SendNew?
    ensures Possible(pool, mark) && After(pool, mark).pc.MarkNew?
    ensures Possible(pool, keep) && After(pool, keep).pc.SetPending?
    ensures Possible(pool, markPending) && After(pool, markPending).pc.MarkPending? && After(pool, markPending).pc.ptr.Some?
    ensures Possible(pool, sendPending) && After(pool, sendPending).pc.SendPending? && After(pool, sendPending).pc.ptr.Some?
    ensures forall es | es in {send, mark, keep, markPending} :: forall b :: !Owned(Finished(After(pool, es), true, b))
    ensures forall es | es in {send, keep, sendPending} :: forall b :: !Streamed(Finished(After(pool, es), true, b))
  {
    send := SwitchOn(pool);
    send := OneMoreByte(pool, send, SwitchedOn(pool), x);
    var m := Offering(SwitchedOn(pool), x);
    mark := OneMore(pool, send, m, Main(true));
    keep := OneMore(pool, send, m, Main(false));
    var n;
    sendPending, n := ToSecondOffer(pool, send, m);
    sendPending := OneMore(pool, sendPending, n, Main(false));
    var n1 := Step(n, false);
    markPending := OneMore(pool, sendPending, n1, Main(true));
    markPending := OneMore(pool, markPending, Step(n1, true), Main(false));
    ResetBreaks(pool, send);
    ResetBreaks(pool, mark);
    ResetBreaks(pool, keep);
    ResetBreaks(pool, markPending);
    ResetBreaks(pool, sendPending);
  }

  lemma ResetBreaks(pool: seq<seq<byte>>, es: seq<Event>)
    requires Possible(pool, es)
    ensures var pc := After(pool, es).pc;
            && (Exposed(pc) ==> forall b :: !Owned(Finished(After(pool, es), true, b)))
            && (pc.SendNew? || pc.SetPending? || (pc.SendPending? && pc.ptr.Some?)
                ==> forall b :: !Streamed(Finished(After(pool, es), true, b)))
  {
    ReachableInv(pool, es);
    forall b
      ensures var pc, n := After(pool, es).pc, Finished(After(pool, es), true, b);
              && (Exposed(pc) ==> !Owned(n))
              && (pc.SendNew? || pc.SetPending? || (pc.SendPending? && pc.ptr.Some?) ==> !Streamed(n))
    {
      ResetExact(After(pool, es), true, b);
    }
  }

  // ---------------------------------------------------------------- the NULL pointer

  /** No NOTIFICATION_ON falls between the test of the pending pointer and its evaluation. */
  predicate SparesTheTest(m: Machine, es: seq<Event>)
    decreases es
  {
    es == [] || ((es[0].On? ==> !m.pc.LoadPending?) && SparesTheTest(Next(m, es[0]), es[1..]))
  }

  /** The pointer offered, or about to be, is not NULL. */
  predicate NotNull(m: Machine) {
    (m.pc.LoadPending? ==> m.w.c.pend.Some?) && (m.pc.SendPending? ==> m.pc.ptr.Some?)
  }

  /** Only such a reset makes the SoftDevice take a NULL pointer. */
  lemma {:induction false} NullNeedsReset(m: Machine, es: seq<Event>)
    requires NotNull(m) && SparesTheTest(m, es)
    ensures Exec(m, es).w.t.nulls == m.w.t.nulls
    decreases es
  {
    if es != [] {
      NullStep(m, es[0]);
      NullNeedsReset(Next(m, es[0]), es[1..]);
    }
  }

  lemma NullStep(m: Machine, e: Event)
    requires NotNull(m) && (e.On? ==> !m.pc.LoadPending?)
    ensures Next(m, e).w.t.nulls == m.w.t.nulls && NotNull(Next(m, e))
  {
  }

  /** And one that the SoftDevice does not refuse does, for every pool. */
  lemma NullReachable(pool: seq<seq<byte>>, x: byte) returns (es: seq<Event>)
    requires PoolOk(pool)
    ensures Possible(pool, es) && After(pool, es).w.t.nulls == 1
  {
    es := SwitchOn(pool);
    es := OneMoreByte(pool, es, SwitchedOn(pool), x);
    var n;
    es, n := ToSecondOffer(pool, es, Offering(SwitchedOn(pool), x));
    es := OneMore(pool, es, n, On);
    var n1 := Next(n, On);
    es := OneMore(pool, es, n1, Main(false));
    es := OneMore(pool, es, Step(n1, false), Main(true));
  }

  // ---------------------------------------------------------------- the give-back branch

  /** From the read of the queue's length at line 79 to the read of its bytes at line 89. */
  predicate Fetching(m: Machine, es: seq<Event>)
    decreases es
  {
    (m.pc.TakeFree? || m.pc.ReadQueue?) && (es == [] || Fetching(Next(m, es[0]), es[1..]))
  }

  predicate HasReset(es: seq<Event>) {
    exists i :: 0 <= i < |es| && es[i].On?
  }

  lemma {:induction false} OnlyResetEmpties(m: Machine, es: seq<Event>)
    requires Fetching(m, es) && AllowedRun(m, es)
    ensures Exec(m, es).w.c.tx == [] <==> m.w.c.tx == [] || HasReset(es)
    decreases es
  {
    if es != [] {
      OnlyResetEmpties(Next(m, es[0]), es[1..]);
      assert es[0].On? || HasReset(es[1..]) <==> HasReset(es) by {
        forall i | 0 < i < |es| && es[i].On?
          ensures HasReset(es[1..])
        {
          assert es[1..][i - 1].On?;
        }
        if HasReset(es[1..]) {
          var i :| 0 <= i < |es| - 1 && es[1..][i].On?;
          assert es[i + 1].On?;
        }
      }
    }
  }

  /** The give-back branch at lines 90-95 runs exactly when a NOTIFICATION_ON came between
      the read of the queue's length and the read of its bytes, whatever else came. */
  lemma ReadFailureExact(m: Machine, es: seq<Event>, accept: bool)
    requires Inv(m) && m.pc.TakeFree? && m.w.c.tx != []
    requires Fetching(m, es) && AllowedRun(m, es) && Exec(m, es).pc.ReadQueue?
    ensures Step(Exec(m, es), accept).pc.GiveBack? <==> HasReset(es)
  {
    RunKeepsInv(m, es);
    OnlyResetEmpties(m, es);
  }
}
