/** The main results about the transfer chain of dac.c. */
module DacTheorems {
  import opened Common
  import opened DacSpec

  lemma InitInv()
    ensures Inv(Init())
  {
  }

  lemma StepKeepsFlagged(m: Machine, ok: bool)
    requires Flagged(m)
    ensures Flagged(Step(m, ok))
  {
  }

  lemma StepKeepsAwake(m: Machine, ok: bool)
    requires Flagged(m) && Awake(m)
    ensures Awake(Step(m, ok))
  {
    if m.pc.Start? {
      assert !ok ==> !AllOk(Step(m, ok).log.starts) by {
        assert Step(m, ok).log.starts[|m.log.starts|] == Try(m.pc.value, ok);
      }
      assert AllOk(Step(m, ok).log.starts) ==> AllOk(m.log.starts) by {
        Earlier(m.log.starts, Try(m.pc.value, ok));
      }
    }
  }

  lemma Earlier(tries: seq<Try>, t: Try)
    ensures AllOk(tries + [t]) <==> AllOk(tries) && t.ok
  {
    assert AllOk(tries + [t]) ==> (tries + [t])[|tries|].ok;
    forall i | 0 <= i < |tries|
      ensures (tries + [t])[i] == tries[i]
    {
    }
  }

  lemma StepKeepsConserved(m: Machine, ok: bool)
    requires Flagged(m) && Conserved(m)
    ensures Conserved(Step(m, ok))
  {
    var n, q := Step(m, ok), m.d.queue;
    if m.pc.Push? {
      PushKeepsConserved(m, ok);
    } else if m.pc.Pop? && q != [] {
      JoinedPop(All(m.log.starts), q, Ok(m.log.pushes));
    } else if m.pc.Start? {
      assert All(n.log.starts) == All(m.log.starts) + [m.pc.value];
      JoinedStart(All(m.log.starts), m.pc.value, q, Ok(m.log.pushes));
    } else {
      assert n.log == m.log && n.d.queue == q && Hand(n.pc) == Hand(m.pc);
    }
  }

  lemma PushKeepsConserved(m: Machine, ok: bool)
    requires Conserved(m) && m.pc.Push?
    ensures Conserved(Step(m, ok))
  {
    var fits := |m.d.queue| < QUEUE_LEN;
    OkAppend(m.log.pushes, Try(m.pc.value, fits));
    if fits {
      JoinedMore(All(m.log.starts), [], m.d.queue, Ok(m.log.pushes), [m.pc.value]);
    } else {
      assert Ok(m.log.pushes) + [] == Ok(m.log.pushes);
    }
  }

  lemma JoinedMore(a: seq<word>, b: seq<word>, c: seq<word>, whole: seq<word>, more: seq<word>)
    requires Joined(a, b, c, whole)
    ensures Joined(a, b, c + more, whole + more)
  {
  }

  lemma JoinedPop(a: seq<word>, c: seq<word>, whole: seq<word>)
    requires Joined(a, [], c, whole) && c != []
    ensures Joined(a, [c[0]], c[1..], whole)
  {
    assert c == [c[0]] + c[1..];
  }

  lemma JoinedStart(a: seq<word>, x: word, c: seq<word>, whole: seq<word>)
    requires Joined(a, [x], c, whole)
    ensures Joined(a + [x], [], c, whole)
  {
  }

  lemma StepKeepsCarried(m: Machine, ok: bool)
    requires Flagged(m) && Carried(m)
    ensures Carried(Step(m, ok))
  {
    if m.pc.Start? {
      OkAppend(m.log.starts, Try(m.pc.value, ok));
    }
    assert !m.pc.Start? ==> InFlight(Step(m, ok).d) == InFlight(m.d);
  }

  lemma IrqKeepsFlagged(m: Machine, acked: bool, ok: bool)
    requires Flagged(m) && Awake(m) && m.d.bus.Some? && !m.pc.MarkBusy?
    ensures Flagged(Complete(m, acked, ok)) && Awake(Complete(m, acked, ok))
  {
    if m.d.queue != [] {
      Earlier(m.log.starts, Try(m.d.queue[0], ok));
    }
  }

  lemma IrqKeepsConserved(m: Machine, acked: bool, ok: bool)
    requires Flagged(m) && Conserved(m) && m.d.bus.Some? && !m.pc.MarkBusy?
    ensures Conserved(Complete(m, acked, ok))
  {
    var n, q := Complete(m, acked, ok), m.d.queue;
    assert Hand(n.pc) == [] && Hand(m.pc) == [];
    if q != [] {
      assert q == [q[0]] + q[1..];
      assert All(n.log.starts) == All(m.log.starts) + [q[0]];
    }
  }

  lemma IrqKeepsCarried(m: Machine, acked: bool, ok: bool)
    requires Carried(m) && m.d.bus.Some?
    ensures Carried(Complete(m, acked, ok))
  {
    var n := Complete(m, acked, ok);
    assert All(n.log.wire) == All(m.log.wire) + InFlight(m.d);
    if m.d.queue != [] {
      OkAppend(m.log.starts, Try(m.d.queue[0], ok));
    }
  }

  lemma IrqKeepsHeard(m: Machine, acked: bool, ok: bool)
    requires Heard(m) && m.d.bus.Some?
    ensures Heard(Complete(m, acked, ok))
  {
    OkAppend(m.log.wire, Try(Content(m.d, m.d.bus.value), acked));
  }

  lemma StepKeepsHeard(m: Machine, ok: bool)
    requires Heard(m)
    ensures Heard(Step(m, ok))
  {
  }

  lemma IrqKeepsInv(m: Machine, acked: bool, ok: bool)
    requires Inv(m) && m.d.bus.Some? && !m.pc.MarkBusy?
    ensures Inv(Complete(m, acked, ok))
  {
    IrqKeepsFlagged(m, acked, ok);
    IrqKeepsConserved(m, acked, ok);
    IrqKeepsCarried(m, acked, ok);
    IrqKeepsHeard(m, acked, ok);
  }

  lemma NextKeepsInv(m: Machine, e: Event)
    requires Inv(m) && Enabled(m, e) && Timely(m, e)
    ensures Inv(Next(m, e))
  {
    match e
    case Call(_) =>
    case Main(ok) =>
      StepKeepsFlagged(m, ok);
      StepKeepsAwake(m, ok);
      StepKeepsConserved(m, ok);
      StepKeepsCarried(m, ok);
      StepKeepsHeard(m, ok);
    case Irq(acked, ok) => IrqKeepsInv(m, acked, ok);
  }

  lemma {:induction false} RunKeepsInv(m: Machine, es: seq<Event>)
    requires Inv(m) && EnabledRun(m, es) && TimelyRun(m, es)
    ensures Inv(Exec(m, es))
    decreases es
  {
    if es != [] {
      NextKeepsInv(m, es[0]);
      RunKeepsInv(Next(m, es[0]), es[1..]);
    }
  }

  // ---------------------------------------------------------------- every run

  predicate Possible(es: seq<Event>) {
    EnabledRun(Init(), es) && TimelyRun(Init(), es)
  }

  /** No lost wake-up: between calls the flag is IN_PROGRESS exactly when a transfer is
      outstanding, a transfer is never started on a busy bus, and as long as every start
      succeeds a chain that is done leaves nothing in the queue. */
  lemma NoLostWakeUp(es: seq<Event>)
    requires Possible(es)
    ensures var m := Exec(Init(), es);
            && (m.pc.Out? ==> (m.d.done <==> m.d.bus.None?))
            && (m.pc.Start? ==> m.d.bus.None?)
            && (m.pc.Out? && AllOk(m.log.starts) && m.d.done ==> m.d.queue == [])
  {
    InitInv();
    RunKeepsInv(Init(), es);
  }

  /** Conservation in order, across both ends of the queue: what was pushed is what was tried,
      then the value in hand, then the queue; what was started is what travelled, then what
      is in flight. Refused starts and both reset branches are covered. */
  lemma QueueConservation(es: seq<Event>)
    requires Possible(es)
    ensures var m := Exec(Init(), es);
            && All(m.log.starts) + Hand(m.pc) + m.d.queue == Ok(m.log.pushes)
            && All(m.log.wire) + InFlight(m.d) == Ok(m.log.starts)
            && m.log.received == Ok(m.log.wire)
            && |m.d.queue| <= QUEUE_LEN
  {
    InitInv();
    RunKeepsInv(Init(), es);
    var m := Exec(Init(), es);
    assert All(m.log.wire) + InFlight(m.d) + [] == All(m.log.wire) + InFlight(m.d);
  }

  /** Nothing but its completion touches the array behind the outstanding transfer. */
  lemma InFlightStable(m: Machine, e: Event)
    requires Inv(m) && Enabled(m, e) && m.d.bus.Some? && !e.Irq?
    ensures Next(m, e).d.bus == m.d.bus && InFlight(Next(m, e).d) == InFlight(m.d)
  {
  }

  // ---------------------------------------------------------------- draining

  /** Completions, acknowledged or not, whose next start succeeds. */
  function Irqs(acks: seq<bool>): (es: seq<Event>)
    ensures |es| == |acks| && forall i :: 0 <= i < |acks| ==> es[i] == Irq(acks[i], true)
  {
    seq(|acks|, i requires 0 <= i < |acks| => Irq(acks[i], true))
  }

  /** Once a transfer is outstanding and starts succeed, completions can occur exactly
      |queue|+1 times, acknowledged or not; the chain is done after the last of them and not
      before, and each takes the next value off the queue. */
  lemma {:induction false} DrainExact(m: Machine, acks: seq<bool>)
    requires m.d.bus.Some? && !m.d.done
    ensures EnabledRun(m, Irqs(acks)) <==> |acks| <= |m.d.queue| + 1
    ensures |acks| <= |m.d.queue| + 1 ==>
              var n := Exec(m, Irqs(acks));
              && n.pc == m.pc && n.log.pushes == m.log.pushes
              && (n.d.done <==> |acks| == |m.d.queue| + 1)
              && n.d.queue == (if |acks| <= |m.d.queue| then m.d.queue[|acks|..] else [])
    decreases acks
  {
    if acks != [] {
      assert Irqs(acks)[1..] == Irqs(acks[1..]);
      var n := Complete(m, acks[0], true);
      if m.d.queue == [] {
        if |acks| > 1 {
          assert Irqs(acks[1..])[0] == Irq(acks[1], true);
        }
      } else {
        DrainExact(n, acks[1..]);
      }
    }
  }

  /** The error branch at lines 154-157: with the chain busy when the value is pushed, and no
      start ever refused, DAC_update_dac still reports a failure exactly when all |queue|+1
      outstanding transfers complete between its push and its test of the flag. The value
      has then been transmitted, and the queue the branch resets is empty. */
  lemma SpuriousFailureExact(m: Machine, acks: seq<bool>)
    requires Inv(m) && m.pc.Test? && m.d.bus.Some? && |acks| <= |m.d.queue| + 1
    ensures EnabledRun(m, Irqs(acks))
    ensures var n := Walk(Exec(m, Irqs(acks)), true, 2);
            && n.pc == Out(|acks| <= |m.d.queue|)
            && n.log.pushes == m.log.pushes
            && (|acks| == |m.d.queue| + 1 ==> n.d.queue == [])
  {
    DrainExact(m, acks);
    var n := Exec(m, Irqs(acks));
    assert Walk(n, true, 2) == Walk(Step(n, true), true, 1);
  }

  lemma {:induction false} ExecConcat(m: Machine, a: seq<Event>, e: Event)
    requires EnabledRun(m, a) && Enabled(Exec(m, a), e)
    ensures EnabledRun(m, a + [e]) && Exec(m, a + [e]) == Next(Exec(m, a), e)
    ensures TimelyRun(m, a) && Timely(Exec(m, a), e) ==> TimelyRun(m, a + [e])
    decreases a
  {
    if a == [] {
      assert a + [e] == [e] && [e][1..] == [];
    } else {
      assert (a + [e])[1..] == a[1..] + [e];
      ExecConcat(Next(m, a[0]), a[1..], e);
    }
  }

  ghost predicate Reaches(es: seq<Event>, m: Machine) {
    Possible(es) && Exec(Init(), es) == m
  }

  /** A possible run, one more event. */
  lemma OneMore(es: seq<Event>, m: Machine, e: Event) returns (more: seq<Event>)
    requires Reaches(es, m) && Enabled(m, e) && Timely(m, e)
    ensures Reaches(more, Next(m, e))
  {
    more := es + [e];
    ExecConcat(Init(), es, e);
  }

  function OneStarted(v: word): Machine {
    Machine(Dac([], false, v, 0, Some(MainArray)), Log([Try(v, true)], [Try(v, true)], [], []), Out(true))
  }

  /** The transfer has been started, and the flag is assigned next. */
  function InWindow(v: word): Machine {
    OneStarted(v).(d := OneStarted(v).d.(done := true), pc := MarkBusy)
  }

  /** One update of the idle chain, up to the assignment of the flag. */
  lemma ToWindow(v: word) returns (es: seq<Event>)
    ensures Reaches(es, InWindow(v))
  {
    var go, idle, queued := Main(true), Dac([], true, 0, 0, None), Log([Try(v, true)], [], [], []);
    var m1 := Machine(idle, Log([], [], [], []), Push(v));
    var m2 := Machine(idle.(queue := [v]), queued, Test);
    var m3 := m2.(pc := Pop);
    var m4 := Machine(idle, queued, Prepare(v));
    var m5 := Machine(idle.(mainArray := v), queued, Start(v));
    es := OneMore([], Init(), Call(v));
    es := OneMore(es, m1, go);
    es := OneMore(es, m2, go);
    es := OneMore(es, m3, go);
    es := OneMore(es, m4, go);
    es := OneMore(es, m5, go);
  }

  /** One update of the idle chain, whose transfer is under way. */
  lemma FirstUpdate(v: word) returns (es: seq<Event>)
    ensures Reaches(es, OneStarted(v))
  {
    es := ToWindow(v);
    es := OneMore(es, InWindow(v), Main(true));
  }

  /** Such a run exists: two updates, both values transmitted, nothing refused, and yet the
      second call reports a failure. */
  lemma SpuriousFailureReachable(v: word, w: word) returns (es: seq<Event>)
    ensures Possible(es)
    ensures var m := Exec(Init(), es);
            && m.pc == Out(false)
            && var both := [Try(v, true), Try(w, true)]; m.log == Log(both, both, both, [v, w])
  {
    var one, two := [Try(v, true)], [Try(v, true), Try(w, true)];
    var m1 := OneStarted(v).(pc := Push(w));
    var m2 := Machine(Dac([w], false, v, 0, Some(MainArray)), Log(two, one, [], []), Test);
    var m3 := Machine(Dac([], false, v, w, Some(IrqArray)), Log(two, two, one, [v]), Test);
    var m4 := Machine(Dac([], true, v, w, None), Log(two, two, two, [v, w]), Test);
    es := FirstUpdate(v);
    es := OneMore(es, OneStarted(v), Call(w));
    es := OneMore(es, m1, Main(true));
    es := OneMore(es, m2, Irq(true, true));
    es := OneMore(es, m3, Irq(true, true));
    es := OneMore(es, m4, Main(true));
    es := OneMore(es, m4.(pc := Pop), Main(true));
  }

  // ---------------------------------------------------------------- the window at 147-149

  /** A completion between nrf_drv_twi_tx and the assignment of the flag leaves the flag
      right exactly when the handler started a further transfer. */
  lemma WindowExact(m: Machine, acked: bool, ok: bool, any: bool)
    requires Inv(m) && m.pc.MarkBusy?
    ensures var n := Step(Complete(m, acked, ok), any);
            && (Flagged(n) <==> m.d.queue != [] && ok)
            && (Stuck(n) <==> !Flagged(n))
  {
  }

  /** The flag says a transfer is under way, and none is. */
  predicate Stuck(m: Machine) {
    !m.d.done && m.d.bus.None? && (m.pc.Out? || m.pc.Push? || m.pc.Test?)
  }

  /** From then on no run starts a transfer again: the wake-up is lost for good. */
  lemma {:induction false} StuckForever(m: Machine, es: seq<Event>)
    requires Stuck(m) && EnabledRun(m, es)
    ensures Stuck(Exec(m, es)) && Exec(m, es).log.starts == m.log.starts && Exec(m, es).log.wire == m.log.wire
    decreases es
  {
    if es != [] {
      StuckForever(Next(m, es[0]), es[1..]);
    }
  }

  /** One untimely completion is enough: the first update of all, whose transfer ends before
      the flag is assigned. */
  lemma StuckReachable(v: word, acked: bool, ok: bool) returns (before: seq<Event>)
    ensures Possible(before)
    ensures var es := before + [Irq(acked, ok)] + [Main(true)];
            EnabledRun(Init(), es) && Stuck(Exec(Init(), es)) && Exec(Init(), es).log.wire == [Try(v, acked)]
  {
    before := ToWindow(v);
    ExecConcat(Init(), before, Irq(acked, ok));
    ExecConcat(Init(), before + [Irq(acked, ok)], Main(true));
  }

  lemma UpdateKeepsInv(m: Machine, value: bv16, ok: bool)
    requires Inv(m) && m.pc.Out?
    ensures Inv(Update(m, value, ok))
  {
    var start := m.(pc := Push(value));
    CallKeepsInv(m, value, start);
    UninterruptedIsUpdate(m, value, ok);
    WalkKeepsInv(start, ok, 6, Update(m, value, ok));
  }

  lemma CallKeepsInv(m: Machine, value: bv16, start: Machine)
    requires m.pc.Out? && start == m.(pc := Push(value))
    ensures Inv(m) ==> Inv(start)
  {
  }

  /** n is where the walk of at most k statements ends. */
  lemma {:induction false} WalkKeepsInv(m: Machine, ok: bool, k: nat, n: Machine)
    requires n == Walk(m, ok, k)
    ensures Inv(m) ==> Inv(n)
    decreases k
  {
    if Inv(m) && k > 0 && !m.pc.Out? {
      NextKeepsInv(m, Main(ok));
      WalkKeepsInv(Step(m, ok), ok, k - 1, n);
    }
  }
}
