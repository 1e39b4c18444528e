/** When the application stops sampling: over runs of the composed sample path. */
module PipelineStop {
  import opened Common
  import A = AdcSpec
  import D = DacSpec
  import DT = DacTheorems
  import opened Pipeline

  /** DAC_update_dac has returned false, and ADC_stop_conv comes next. */
  predicate AboutToStop(m: Machine) {
    m.adc.pc.InUpdate? && m.dac.pc == D.Out(false)
  }

  /** The push finds the queue full, or the transfer is refused, or the queue has been emptied
      by completions since the push. */
  predicate Fails(m: Machine, e: Event) {
    e.Main? && m.adc.pc.InUpdate?
    && ((m.dac.pc.Push? && |m.dac.d.queue| >= D.QUEUE_LEN) || (m.dac.pc.Start? && !e.txOk) || Overtaken(m, e))
  }

  predicate Overtaken(m: Machine, e: Event) {
    e.Main? && m.adc.pc.InUpdate? && m.dac.pc.Pop? && m.dac.d.queue == []
  }

  predicate FailsAlong(m: Machine, es: seq<Event>)
    requires Possible(m, es)
    decreases es
  {
    es != [] && (Fails(m, es[0]) || FailsAlong(Next(m, es[0]), es[1..]))
  }

  predicate OvertakenAlong(m: Machine, es: seq<Event>)
    requires Possible(m, es)
    decreases es
  {
    es != [] && (Overtaken(m, es[0]) || OvertakenAlong(Next(m, es[0]), es[1..]))
  }

  lemma StopStep(m: Machine, e: Event)
    requires InStep(m) && Enabled(m, e)
    ensures var n := Next(m, e);
            n.stopped || AboutToStop(n) <==> m.stopped || AboutToStop(m) || Fails(m, e)
  {
  }

  /** In any run sampling is stopped, or about to be, exactly when a push found the queue full,
      or a start by the main loop was refused, or completions overtook an update. */
  lemma {:induction false} StoppedExact(m: Machine, es: seq<Event>)
    requires InStep(m) && Possible(m, es)
    ensures var n := Exec(m, es);
            n.stopped || AboutToStop(n) <==> m.stopped || AboutToStop(m) || FailsAlong(m, es)
    decreases es
  {
    if es != [] {
      StopStep(m, es[0]);
      NextKeepsInStep(m, es[0]);
      StoppedExact(Next(m, es[0]), es[1..]);
    }
  }

  lemma RefusalStays(m: Machine, e: Event)
    requires Enabled(m, e)
    ensures NothingRefused(Next(m, e)) ==> NothingRefused(m) && (Fails(m, e) <==> Overtaken(m, e))
  {
    var n := Next(m, e);
    assert m.dac.log.pushes <= n.dac.log.pushes && m.dac.log.starts <= n.dac.log.starts;
    if e.Main? && m.adc.pc.InUpdate? && m.dac.pc.Push? {
      assert n.dac.log.pushes[|m.dac.log.pushes|].ok <==> |m.dac.d.queue| < D.QUEUE_LEN;
    }
    if e.Main? && m.adc.pc.InUpdate? && m.dac.pc.Start? {
      assert n.dac.log.starts[|m.dac.log.starts|].ok <==> e.txOk;
    }
  }

  lemma {:induction false} RefusalsStay(m: Machine, es: seq<Event>)
    requires Possible(m, es)
    ensures NothingRefused(Exec(m, es)) ==> NothingRefused(m) && (FailsAlong(m, es) <==> OvertakenAlong(m, es))
    decreases es
  {
    if es != [] {
      RefusalStays(m, es[0]);
      RefusalsStay(Next(m, es[0]), es[1..]);
    }
  }

  /** If nothing was refused, sampling has stopped exactly when completions overtook an
      update between its push and its pop. */
  lemma StoppedUnrefusedExact(slots: seq<A.Batch>, es: seq<Event>)
    requires slots != [] && Possible(Init(slots), es) && NothingRefused(Exec(Init(slots), es))
    ensures var n := Exec(Init(slots), es);
            n.stopped || AboutToStop(n) <==> OvertakenAlong(Init(slots), es)
  {
    StoppedExact(Init(slots), es);
    RefusalsStay(Init(slots), es);
  }

  // ---------------------------------------------------------------- when completions overtake

  /** Interrupts only, and the handler's starts succeed. */
  predicate Interrupts(es: seq<Event>) {
    forall i :: 0 <= i < |es| ==> !es[i].Main? && (es[i].TwiIrq? ==> es[i].txOk)
  }

  function Completions(es: seq<Event>): nat
    decreases es
  {
    if es == [] then 0 else (if es[0].TwiIrq? then 1 else 0) + Completions(es[1..])
  }

  /** c completions after a state with a transfer outstanding. */
  predicate DrainedBy(q: seq<bv16>, c: nat, d: D.Dac) {
    if c <= |q| then d.bus.Some? && !d.done && d.queue == q[c..]
    else c == |q| + 1 && d.bus.None? && d.done && d.queue == []
  }

  lemma InterruptDrains(m: Machine, q: seq<bv16>, c: nat, e: Event)
    requires DrainedBy(q, c, m.dac.d) && Enabled(m, e) && !e.Main? && (e.TwiIrq? ==> e.txOk)
    ensures var n := Next(m, e);
            && DrainedBy(q, c + if e.TwiIrq? then 1 else 0, n.dac.d)
            && n.dac.pc == m.dac.pc && n.adc.pc == m.adc.pc
  {
  }

  lemma {:induction false} InterruptsDrain(m: Machine, q: seq<bv16>, c: nat, es: seq<Event>)
    requires DrainedBy(q, c, m.dac.d) && Possible(m, es) && Interrupts(es)
    ensures var n := Exec(m, es);
            && DrainedBy(q, c + Completions(es), n.dac.d)
            && n.dac.pc == m.dac.pc && n.adc.pc == m.adc.pc
    decreases es
  {
    if es != [] {
      InterruptDrains(m, q, c, es[0]);
      forall i | 0 <= i < |es| - 1
        ensures !es[1..][i].Main? && (es[1..][i].TwiIrq? ==> es[1..][i].txOk)
      {
        assert es[1..][i] == es[i + 1];
      }
      InterruptsDrain(Next(m, es[0]), q, c + if es[0].TwiIrq? then 1 else 0, es[1..]);
    }
  }

  /** An update of a busy chain that pushes its word behind |queue|-1 others: whatever samples
      come in meanwhile, sampling is about to be stopped after the next two statements exactly
      when all |queue|+1 transfers complete between the push and the test of the flag. */
  lemma OvertakenExact(m: Machine, es: seq<Event>, a: bool, b: bool)
    requires D.Flagged(m.dac) && m.adc.pc.InUpdate? && m.dac.pc.Test? && m.dac.d.bus.Some?
    requires Possible(m, es) && Interrupts(es)
    ensures Completions(es) <= |m.dac.d.queue| + 1
    ensures AboutToStop(Step(Step(Exec(m, es), a), b)) <==> Completions(es) == |m.dac.d.queue| + 1
  {
    InterruptsDrain(m, m.dac.d.queue, 0, es);
    TestAndPop(Exec(m, es), a, b);
  }

  lemma TestAndPop(m: Machine, a: bool, b: bool)
    requires m.adc.pc.InUpdate? && m.dac.pc.Test?
    ensures AboutToStop(Step(Step(m, a), b)) <==> m.dac.d.done && m.dac.d.queue == []
  {
    var n := Step(m, a);
    assert n == m.(dac := D.Step(m.dac, a));
  }

  /** An update of an idle chain cannot be overtaken: there is nothing left to complete. */
  lemma IdleNotOvertaken(m: Machine, es: seq<Event>, a: bool, b: bool)
    requires D.Flagged(m.dac) && m.adc.pc.InUpdate? && m.dac.pc.Test? && m.dac.d.bus.None? && m.dac.d.queue != []
    requires Possible(m, es) && Interrupts(es)
    ensures Completions(es) == 0 && !AboutToStop(Step(Step(Exec(m, es), a), b))
  {
    IdleStays(m, es);
    TestAndPop(Exec(m, es), a, b);
  }

  lemma {:induction false} IdleStays(m: Machine, es: seq<Event>)
    requires m.dac.d.bus.None? && Possible(m, es) && Interrupts(es)
    ensures Completions(es) == 0 && Exec(m, es).dac == m.dac && Exec(m, es).adc.pc == m.adc.pc
    decreases es
  {
    if es != [] {
      forall i | 0 <= i < |es| - 1
        ensures !es[1..][i].Main? && (es[1..][i].TwiIrq? ==> es[1..][i].txOk)
      {
        assert es[1..][i] == es[i + 1];
      }
      IdleStays(Next(m, es[0]), es[1..]);
    }
  }

  // ---------------------------------------------------------------- such a run

  ghost predicate Reaches(slots: seq<A.Batch>, es: seq<Event>, m: Machine) {
    Possible(Init(slots), es) && Exec(Init(slots), es) == m
  }

  lemma {:induction false} ExecConcat(m: Machine, a: seq<Event>, e: Event)
    requires Possible(m, a) && Enabled(Exec(m, a), e)
    ensures Possible(m, a + [e]) && Exec(m, a + [e]) == Next(Exec(m, a), e)
    decreases a
  {
    if a == [] {
      assert a + [e] == [e] && [e][1..] == [];
    } else {
      assert (a + [e])[1..] == a[1..] + [e];
      ExecConcat(Next(m, a[0]), a[1..], e);
    }
  }

  lemma OneMore(slots: seq<A.Batch>, es: seq<Event>, m: Machine, e: Event) returns (more: seq<Event>)
    requires Reaches(slots, es, m) && Enabled(m, e)
    ensures Reaches(slots, more, Next(m, e))
  {
    more := es + [e];
    ExecConcat(Init(slots), es, e);
  }

  lemma {:induction false} KMore(slots: seq<A.Batch>, es: seq<Event>, m: Machine, k: nat) returns (more: seq<Event>)
    requires Reaches(slots, es, m)
    ensures Reaches(slots, more, Walk(m, true, k))
    decreases k
  {
    more := es;
    if k > 0 {
      more := OneMore(slots, es, m, Main(true));
      more := KMore(slots, more, Step(m, true), k - 1);
    }
  }

  /** A waiting consumer with the flag up and one batch, over a given DAC state. */
  predicate Ready(m: Machine) {
    m.adc.pc.Wait? && m.adc.a.got && m.adc.a.inUse != [] && m.dac.pc.Out? && !m.stopped
  }

  /** The first update of an idle chain starts a transfer. */
  lemma FirstHandled(m: Machine)
    requires Ready(m) && m.dac == D.Init() && |m.adc.a.inUse| == 1
    ensures var n := Handle(m, true);
            && n.adc.pc.Wait? && !n.adc.a.got && n.adc.a.inUse == [] && !n.stopped
            && n.dac == DT.OneStarted(WordOf(A.AverageOf(A.SlotOf(m.adc.a, m.adc.a.inUse[0]))))
  {
    var v := WordOf(A.AverageOf(A.SlotOf(m.adc.a, m.adc.a.inUse[0])));
    assert D.Init().d.queue + [v] == [v] && [v][1..] == [];
  }

  /** The second one is overtaken by both completions after its push. */
  lemma SecondOvertaken(slots: seq<A.Batch>, es: seq<Event>, m: Machine, v: bv16) returns (more: seq<Event>)
    requires Reaches(slots, es, m) && Ready(m) && m.dac == DT.OneStarted(v)
    ensures Possible(Init(slots), more)
    ensures Exec(Init(slots), more).stopped && NothingRefused(Exec(Init(slots), more))
  {
    var n := ToUpdate(m.adc);
    WalkToUpdate(m, true);
    AtUpdate(m.adc);
    var m1 := Walk(m, true, n);
    var w := WordOf(m1.adc.pc.avg);
    more := KMore(slots, es, m, n);
    more := OneMore(slots, more, m1, Main(true));
    var adc := A.Step(m1.adc);
    more := Overtaking(slots, more, Machine(adc, DT.OneStarted(v).(pc := D.Push(w)), false), v, w);
  }

  lemma Overtaking(slots: seq<A.Batch>, es: seq<Event>, m: Machine, v: bv16, w: bv16) returns (more: seq<Event>)
    requires Reaches(slots, es, m) && m.adc.pc.InUpdate?
    requires m.dac == DT.OneStarted(v).(pc := D.Push(w)) && !m.stopped
    ensures Possible(Init(slots), more)
    ensures Exec(Init(slots), more).stopped && NothingRefused(Exec(Init(slots), more))
  {
    var one, two := [D.Try(v, true)], [D.Try(v, true), D.Try(w, true)];
    var d2 := D.Machine(D.Dac([w], false, v, 0, Some(D.MainArray)), D.Log(two, one, [], []), D.Test);
    var d3 := D.Machine(D.Dac([], false, v, w, Some(D.IrqArray)), D.Log(two, two, one, [v]), D.Test);
    var d4 := D.Machine(D.Dac([], true, v, w, None), D.Log(two, two, two, [v, w]), D.Test);
    assert D.Step(m.dac, true) == d2 && D.Complete(d2, true, true) == d3 && D.Complete(d3, true, true) == d4;
    more := OneMore(slots, es, m, Main(true));
    more := OneMore(slots, more, m.(dac := d2), TwiIrq(true, true));
    more := OneMore(slots, more, m.(dac := d3), TwiIrq(true, true));
    more := StopsAfterTest(slots, more, m.(dac := d4));
  }

  /** The test finds the chain done and the pop the queue empty. */
  lemma StopsAfterTest(slots: seq<A.Batch>, es: seq<Event>, m: Machine) returns (more: seq<Event>)
    requires Reaches(slots, es, m) && m.adc.pc.InUpdate? && NothingRefused(m)
    requires m.dac.pc.Test? && m.dac.d.done && m.dac.d.queue == []
    ensures Possible(Init(slots), more)
    ensures Exec(Init(slots), more).stopped && NothingRefused(Exec(Init(slots), more))
  {
    more := OneMore(slots, es, m, Main(true));
    more := OneMore(slots, more, m.(dac := m.dac.(pc := D.Pop)), Main(true));
    more := OneMore(slots, more, m.(dac := m.dac.(pc := D.Out(false))), Main(true));
  }

  /** Two batches, both transmitted, nothing refused, and sampling is stopped for good. */
  lemma StopsUnrefused(slots: seq<A.Batch>, raw1: seq<int>, raw2: seq<int>) returns (es: seq<Event>)
    requires slots != [] && A.RawOk(raw1) && A.RawOk(raw2)
    ensures Possible(Init(slots), es)
    ensures Exec(Init(slots), es).stopped && NothingRefused(Exec(Init(slots), es))
  {
    var m0 := Init(slots);
    es := OneMore(slots, [], m0, AdcIrq(raw1));
    var m1 := Next(m0, AdcIrq(raw1));
    assert m1.adc.a.inUse == [0];
    FirstHandled(m1);
    var k := UninterruptedIsHandle(m1, true);
    es := KMore(slots, es, m1, k);
    var m2 := Handle(m1, true);
    es := OneMore(slots, es, m2, AdcIrq(raw2));
    es := SecondOvertaken(slots, es, Next(m2, AdcIrq(raw2)), WordOf(A.AverageOf(A.SlotOf(m1.adc.a, 0))));
  }

  /** A word is lost for the DAC with nothing refused: its only transfer is not acknowledged,
      and nothing is left to be done. */
  lemma NackLosesWord(slots: seq<A.Batch>, raw: seq<int>) returns (es: seq<Event>)
    requires slots != [] && A.RawOk(raw)
    ensures Possible(Init(slots), es)
    ensures var m := Exec(Init(slots), es);
            && NothingRefused(m) && |m.adc.log.accepted| == 1
            && m.adc.pc.Wait? && Behind(m) == [] && m.dac.d.done && m.dac.log.received == []
  {
    var m0 := Init(slots);
    es := OneMore(slots, [], m0, AdcIrq(raw));
    var m1 := Next(m0, AdcIrq(raw));
    assert m1.adc.a.inUse == [0];
    FirstHandled(m1);
    var k := UninterruptedIsHandle(m1, true);
    es := KMore(slots, es, m1, k);
    var m2 := Handle(m1, true);
    es := OneMore(slots, es, m2, TwiIrq(false, true));
    var m := Next(m2, TwiIrq(false, true));
    assert A.Contents(m.adc.a.slots, []) == [] && Words([]) == [];
  }
}
