/** The whole sample path: ADC callback, averaging consumer, DAC queue and transfer chain,
    with both interrupts between any two statements of the main loop. */
module Pipeline {
  import opened Common
  import opened Conversion
  import A = AdcSpec
  import AT = AdcTheorems
  import D = DacSpec
  import DT = DacTheorems
  import Mcp = Mcp47x6

  /** stopped: ADC_stop_conv has been called. */
  datatype Machine = Machine(adc: A.Machine, dac: D.Machine, stopped: bool)

  datatype Event = Main(txOk: bool) | AdcIrq(raw: seq<int>) | TwiIrq(acked: bool, txOk: bool)

  /** The word queued for an average: through int16_t and uint16_t. */
  function WordOf(avg: int): bv16 {
    Word(SiginMv(avg))
  }

  function BatchWord(b: A.Batch): bv16 {
    WordOf(A.AverageOf(b))
  }

  /** The next statement of the main loop. */
  function Step(m: Machine, txOk: bool): Machine {
    if m.adc.pc.Update? then
      m.(adc := A.Step(m.adc), dac := m.dac.(pc := D.Push(WordOf(m.adc.pc.avg))))
    else if m.adc.pc.InUpdate? && !m.dac.pc.Out? then
      m.(dac := D.Step(m.dac, txOk))
    else if m.adc.pc.InUpdate? then
      m.(adc := A.Step(m.adc), stopped := m.stopped || !m.dac.pc.ret)
    else
      m.(adc := A.Step(m.adc))
  }

  predicate Enabled(m: Machine, e: Event) {
    (e.AdcIrq? ==> !m.stopped && A.RawOk(e.raw))
    && (e.TwiIrq? ==> m.dac.d.bus.Some? && !m.dac.pc.MarkBusy?)
  }

  function Next(m: Machine, e: Event): Machine
    requires Enabled(m, e)
  {
    match e
    case Main(txOk) => Step(m, txOk)
    case AdcIrq(raw) => m.(adc := A.Callback(m.adc, raw))
    case TwiIrq(acked, txOk) => m.(dac := D.Complete(m.dac, acked, txOk))
  }

  predicate Possible(m: Machine, es: seq<Event>)
    decreases es
  {
    es == [] || (Enabled(m, es[0]) && Possible(Next(m, es[0]), es[1..]))
  }

  function Exec(m: Machine, es: seq<Event>): Machine
    requires Possible(m, es)
    decreases es
  {
    if es == [] then m else Exec(Next(m, es[0]), es[1..])
  }

  function Init(slots: seq<A.Batch>): Machine {
    Machine(A.Init(slots), D.Init(), false)
  }

  // ---------------------------------------------------------------- the invariant

  ghost function Words(bs: seq<A.Batch>): (s: seq<bv16>)
    ensures |s| == |bs| && forall i :: 0 <= i < |s| ==> s[i] == BatchWord(bs[i])
  {
    seq(|bs|, i requires 0 <= i < |bs| => BatchWord(bs[i]))
  }

  /** The batch taken whose word has not been offered to the DAC queue yet. */
  function Unpushed(m: Machine): seq<bv16> {
    var pc, taken := m.adc.pc, m.adc.log.taken;
    if (pc.Sum? || pc.Release? || pc.Update?) && taken != [] then [BatchWord(taken[|taken| - 1])]
    else if m.dac.pc.Push? then [m.dac.pc.value]
    else []
  }

  ghost predicate Handed(m: Machine) {
    D.All(m.dac.log.pushes) + Unpushed(m) == Words(m.adc.log.taken)
  }

  /** DAC_update_dac is being executed only while the consumer has called it. */
  predicate InStep(m: Machine) {
    !m.dac.pc.Out? ==> m.adc.pc.InUpdate?
  }

  ghost predicate Inv(m: Machine) {
    A.Inv(m.adc) && D.Inv(m.dac) && InStep(m) && Handed(m) && A.AcceptedOk(m.adc.log)
  }

  lemma InitInv(slots: seq<A.Batch>)
    requires slots != []
    ensures Inv(Init(slots))
  {
    AT.InitInv(slots);
    DT.InitInv();
  }

  lemma TakeKeepsHanded(m: Machine, txOk: bool)
    requires m.dac.pc.Out? && Handed(m) && m.adc.pc.Take? && m.adc.a.inUse != []
    ensures Handed(Step(m, txOk))
  {
    var n := Step(m, txOk);
    WordsAppend(m.adc.log.taken, A.SlotOf(m.adc.a, m.adc.a.inUse[0]));
    assert Unpushed(m) == [];
  }

  lemma WordsAppend(bs: seq<A.Batch>, b: A.Batch)
    ensures Words(bs + [b]) == Words(bs) + [BatchWord(b)]
  {
  }

  lemma PushKeepsHanded(m: Machine, txOk: bool)
    requires Handed(m) && m.adc.pc.InUpdate? && m.dac.pc.Push?
    ensures Handed(Step(m, txOk))
  {
    var n := Step(m, txOk);
    assert D.All(n.dac.log.pushes) == D.All(m.dac.log.pushes) + Unpushed(m);
    assert Unpushed(n) == [];
  }

  lemma StepKeepsHanded(m: Machine, txOk: bool)
    requires A.HandOk(m.adc) && InStep(m) && Handed(m)
    ensures Handed(Step(m, txOk))
  {
    if m.adc.pc.Take? && m.adc.a.inUse != [] {
      TakeKeepsHanded(m, txOk);
    } else if m.adc.pc.InUpdate? && m.dac.pc.Push? {
      PushKeepsHanded(m, txOk);
    } else {
      QuietStep(m, txOk);
    }
  }

  /** All other statements hand nothing on. */
  lemma QuietStep(m: Machine, txOk: bool)
    requires A.HandOk(m.adc) && InStep(m)
    requires !(m.adc.pc.Take? && m.adc.a.inUse != []) && !(m.adc.pc.InUpdate? && m.dac.pc.Push?)
    ensures var n := Step(m, txOk);
            n.adc.log == m.adc.log && n.dac.log.pushes == m.dac.log.pushes && Unpushed(n) == Unpushed(m)
  {
    if m.adc.pc.Update? {
      CallKeepsUnpushed(m, txOk);
    } else if m.adc.pc.InUpdate? {
      QuietUpdate(m, txOk);
    } else {
      QuietConsumer(m, txOk);
    }
  }

  /** The word of the batch in hand becomes the argument of DAC_update_dac. */
  lemma CallKeepsUnpushed(m: Machine, txOk: bool)
    requires A.HandOk(m.adc) && m.dac.pc.Out? && m.adc.pc.Update?
    ensures var n := Step(m, txOk);
            n.adc.log == m.adc.log && n.dac.log.pushes == m.dac.log.pushes && Unpushed(n) == Unpushed(m)
  {
    assert m.adc.pc.avg == A.AverageOf(m.adc.log.taken[|m.adc.log.taken| - 1]);
  }

  lemma QuietUpdate(m: Machine, txOk: bool)
    requires m.adc.pc.InUpdate? && !m.dac.pc.Push?
    ensures var n := Step(m, txOk);
            n.adc.log == m.adc.log && n.dac.log.pushes == m.dac.log.pushes && Unpushed(n) == Unpushed(m)
  {
  }

  lemma QuietConsumer(m: Machine, txOk: bool)
    requires m.dac.pc.Out? && !m.adc.pc.Update? && !m.adc.pc.InUpdate?
    requires !(m.adc.pc.Take? && m.adc.a.inUse != [])
    ensures var n := Step(m, txOk);
            n.adc.log == m.adc.log && n.dac.log.pushes == m.dac.log.pushes && Unpushed(n) == Unpushed(m)
  {
    var n := Step(m, txOk);
    AT.OtherStep(m.adc);
    assert n.dac == m.dac && n.adc == A.Step(m.adc);
  }

  lemma DacSideKeepsInv(m: Machine, e: Event)
    requires D.Inv(m.dac) && InStep(m) && Enabled(m, e)
    ensures D.Inv(Next(m, e).dac)
  {
    match e
    case Main(txOk) =>
      if m.adc.pc.Update? {
        DT.NextKeepsInv(m.dac, D.Call(WordOf(m.adc.pc.avg)));
      } else if m.adc.pc.InUpdate? {
        DT.NextKeepsInv(m.dac, D.Main(txOk));
      }
    case AdcIrq(_) =>
    case TwiIrq(acked, txOk) => DT.IrqKeepsInv(m.dac, acked, txOk);
  }

  lemma AdcSideKeepsInv(m: Machine, e: Event)
    requires A.Inv(m.adc) && Enabled(m, e)
    ensures A.Inv(Next(m, e).adc)
  {
    match e
    case Main(_) => AT.NextKeepsInv(m.adc, A.Main);
    case AdcIrq(raw) => AT.NextKeepsInv(m.adc, A.Irq(raw));
    case TwiIrq(_, _) =>
  }

  lemma CallbackIsQuiet(m: A.Machine, raw: seq<int>)
    ensures A.Callback(m, raw).pc == m.pc && A.Callback(m, raw).log.taken == m.log.taken
  {
  }

  lemma CompleteIsQuiet(d: D.Machine, acked: bool, txOk: bool)
    requires d.d.bus.Some?
    ensures D.Complete(d, acked, txOk).pc == d.pc && D.Complete(d, acked, txOk).log.pushes == d.log.pushes
  {
  }

  /** An interrupt hands nothing on. */
  lemma IrqIsQuiet(m: Machine, e: Event)
    requires Enabled(m, e) && !e.Main?
    ensures var n := Next(m, e);
            n.dac.log.pushes == m.dac.log.pushes && n.adc.log.taken == m.adc.log.taken && Unpushed(n) == Unpushed(m)
  {
    match e
    case Main(_) =>
    case AdcIrq(raw) => CallbackIsQuiet(m.adc, raw);
    case TwiIrq(acked, txOk) => CompleteIsQuiet(m.dac, acked, txOk);
  }

  lemma CallbackKeepsAccepted(m: A.Machine, raw: seq<int>)
    requires A.AcceptedOk(m.log) && A.RawOk(raw)
    ensures A.AcceptedOk(A.Callback(m, raw).log)
  {
  }

  lemma IrqKeepsLink(m: Machine, e: Event)
    requires Handed(m) && A.AcceptedOk(m.adc.log) && Enabled(m, e) && !e.Main?
    ensures Handed(Next(m, e)) && A.AcceptedOk(Next(m, e).adc.log)
  {
    IrqIsQuiet(m, e);
    if e.AdcIrq? {
      CallbackKeepsAccepted(m.adc, e.raw);
    }
  }

  lemma NextKeepsLink(m: Machine, e: Event)
    requires A.HandOk(m.adc) && InStep(m) && Handed(m) && A.AcceptedOk(m.adc.log) && Enabled(m, e)
    ensures Handed(Next(m, e)) && A.AcceptedOk(Next(m, e).adc.log)
  {
    if e.Main? {
      StepKeepsHanded(m, e.txOk);
      StepKeepsAccepted(m, e.txOk);
    } else {
      IrqKeepsLink(m, e);
    }
  }

  lemma StepKeepsAccepted(m: Machine, txOk: bool)
    ensures Step(m, txOk).adc.log.accepted == m.adc.log.accepted
  {
  }

  lemma NextKeepsInStep(m: Machine, e: Event)
    requires InStep(m) && Enabled(m, e)
    ensures InStep(Next(m, e))
  {
  }

  lemma NextKeepsInv(m: Machine, e: Event)
    requires Inv(m) && Enabled(m, e)
    ensures Inv(Next(m, e))
  {
    DacSideKeepsInv(m, e);
    AdcSideKeepsInv(m, e);
    NextKeepsLink(m, e);
    NextKeepsInStep(m, e);
  }

  lemma {:induction false} RunKeepsInv(m: Machine, es: seq<Event>)
    requires Inv(m) && Possible(m, es)
    ensures Inv(Exec(m, es))
    decreases es
  {
    if es != [] {
      NextKeepsInv(m, es[0]);
      RunKeepsInv(Next(m, es[0]), es[1..]);
    }
  }

  // ---------------------------------------------------------------- every run

  /** The two queues compose to one order-preserving path, in every run, refusals included:
      what travelled and is in flight is what was started; what was tried, is in hand and is
      queued is what was pushed; what was offered is what was taken; and what was taken and
      waits in the slots is what the converter delivered. The DAC has received what travelled
      without the words it did not acknowledge. */
  lemma SystemFifo(slots: seq<A.Batch>, es: seq<Event>)
    requires slots != [] && Possible(Init(slots), es)
    ensures var m := Exec(Init(slots), es); var log := m.dac.log;
            && log.received == D.Ok(log.wire)
            && D.All(log.wire) + D.InFlight(m.dac.d) == D.Ok(log.starts)
            && D.All(log.starts) + D.Hand(m.dac.pc) + m.dac.d.queue == D.Ok(log.pushes)
            && D.All(log.pushes) + Unpushed(m) == Words(m.adc.log.taken)
            && m.adc.log.taken + A.Contents(m.adc.a.slots, m.adc.a.inUse) == m.adc.log.accepted
  {
    InitInv(slots);
    RunKeepsInv(Init(slots), es);
    var m := Exec(Init(slots), es);
    assert D.All(m.dac.log.wire) + D.InFlight(m.dac.d) + [] == D.All(m.dac.log.wire) + D.InFlight(m.dac.d);
  }

  lemma {:induction false} OkIsAll(tries: seq<D.Try>)
    requires D.AllOk(tries)
    ensures D.Ok(tries) == D.All(tries)
  {
    if tries != [] {
      OkIsAll(tries[..|tries| - 1]);
      assert D.All(tries) == D.All(tries[..|tries| - 1]) + [tries[|tries| - 1].value];
    }
  }

  /** No push and no start of a transfer was refused. */
  predicate NothingRefused(m: Machine) {
    D.AllOk(m.dac.log.pushes) && D.AllOk(m.dac.log.starts)
  }

  /** The words that have not travelled yet, from the flight back to the slots. */
  ghost function Behind(m: Machine): seq<bv16> {
    D.InFlight(m.dac.d) + D.Hand(m.dac.pc) + m.dac.d.queue + Unpushed(m)
    + Words(A.Contents(m.adc.a.slots, m.adc.a.inUse))
  }

  /** While nothing is refused, every batch the converter delivered is in exactly one place,
      in order, from the wire back to the slots. */
  lemma LosslessFifo(slots: seq<A.Batch>, es: seq<Event>)
    requires slots != [] && Possible(Init(slots), es) && NothingRefused(Exec(Init(slots), es))
    ensures var m := Exec(Init(slots), es); D.All(m.dac.log.wire) + Behind(m) == Words(m.adc.log.accepted)
  {
    SystemFifo(slots, es);
    var m := Exec(Init(slots), es);
    OkIsAll(m.dac.log.pushes);
    OkIsAll(m.dac.log.starts);
    var waiting := A.Contents(m.adc.a.slots, m.adc.a.inUse);
    WordsConcat(m.adc.log.taken, waiting);
    Chain(D.All(m.dac.log.wire), D.InFlight(m.dac.d), D.Hand(m.dac.pc), m.dac.d.queue, Unpushed(m), Words(waiting),
          D.All(m.dac.log.starts), D.All(m.dac.log.pushes), Words(m.adc.log.taken), Words(m.adc.log.accepted));
  }

  /** A transfer that ends without acknowledgement is not repeated. So, while nothing is
      refused, the words received and those still behind are all that the converter delivered
      exactly when every transfer was acknowledged. */
  lemma ReceivedExact(slots: seq<A.Batch>, es: seq<Event>)
    requires slots != [] && Possible(Init(slots), es) && NothingRefused(Exec(Init(slots), es))
    ensures var m := Exec(Init(slots), es);
            m.dac.log.received + Behind(m) == Words(m.adc.log.accepted) <==> D.AllOk(m.dac.log.wire)
  {
    SystemFifo(slots, es);
    LosslessFifo(slots, es);
    OkLength(Exec(Init(slots), es).dac.log.wire);
  }

  lemma {:induction false} OkLength(tries: seq<D.Try>)
    ensures |D.Ok(tries)| <= |tries|
    ensures D.Ok(tries) == D.All(tries) <==> D.AllOk(tries)
    ensures |D.Ok(tries)| == |tries| <==> D.AllOk(tries)
    decreases |tries|
  {
    if tries != [] {
      var last := |tries| - 1;
      OkLength(tries[..last]);
      assert D.All(tries) == D.All(tries[..last]) + [tries[last].value];
      assert D.AllOk(tries) <==> D.AllOk(tries[..last]) && tries[last].ok;
    }
  }

  lemma WordsConcat(a: seq<A.Batch>, b: seq<A.Batch>)
    ensures Words(a + b) == Words(a) + Words(b)
  {
  }

  /** Four equations, one behind the other. */
  lemma Chain(a: seq<bv16>, b: seq<bv16>, c: seq<bv16>, d: seq<bv16>, e: seq<bv16>, f: seq<bv16>,
              ab: seq<bv16>, abcd: seq<bv16>, abcde: seq<bv16>, all: seq<bv16>)
    requires a + b == ab && ab + c + d == abcd && abcd + e == abcde && abcde + f == all
    ensures a + (b + c + d + e + f) == all
  {
    assert a + b + c + d + e + f == all;
    Regroup(a, b, c + d + e + f);
    assert b + (c + d + e + f) == b + c + d + e + f;
    assert a + b + (c + d + e + f) == a + b + c + d + e + f;
  }

  lemma Regroup(a: seq<bv16>, b: seq<bv16>, c: seq<bv16>)
    ensures a + (b + c) == a + b + c
  {
  }

  /** End to end: as long as nothing is refused and every transfer is acknowledged, the k-th
      word the DAC receives is the image of the k-th batch the converter delivered, off by less
      than 4.7 steps. */
  lemma EndToEnd(slots: seq<A.Batch>, es: seq<Event>, k: nat)
    requires slots != [] && Possible(Init(slots), es) && NothingRefused(Exec(Init(slots), es))
    requires var log := Exec(Init(slots), es).dac.log; D.AllOk(log.wire) && k < |log.received|
    ensures var m := Exec(Init(slots), es);
            && k < |m.adc.log.accepted|
            && var s, word := m.adc.log.accepted[k].sigin, m.dac.log.received[k];
            && SamplesOk(s)
            && word == Code(s) as bv16
            && Mcp.DacValue(Mcp.Dac12, Mcp.VolatileDacFrame(Mcp.DAC_SETTINGS, word)) == word
            && Code(s) as real <= Ideal(s) < Code(s) as real + 4.7
            && (AllEqual(s) ==> Code(s) == s[0] * 3600 / 1024 * 4095 / 5000)
  {
    ReceivedExact(slots, es);
    InitInv(slots);
    RunKeepsInv(Init(slots), es);
    var m := Exec(Init(slots), es);
    PrefixAt(m.dac.log.received, Behind(m), m.adc.log.accepted, k);
    var b := m.adc.log.accepted[k];
    BatchWordIsCode(b);
    CodeFits(b.sigin);
    CodeError(b.sigin);
    if AllEqual(b.sigin) {
      CodeOfEqual(b.sigin);
    }
  }

  lemma PrefixAt(done: seq<bv16>, behind: seq<bv16>, bs: seq<A.Batch>, k: nat)
    requires done + behind == Words(bs) && k < |done|
    ensures k < |bs| && done[k] == BatchWord(bs[k])
  {
    assert (done + behind)[k] == done[k];
  }

  lemma BatchWordIsCode(b: A.Batch)
    requires SamplesOk(b.sigin)
    ensures BatchWord(b) == Word(AverageMv(b.sigin)) == Code(b.sigin) as bv16
  {
    var mv := AverageMv(b.sigin);
    assert A.AverageOf(b) == Mean(b.sigin);
    assert SiginMv(Mean(b.sigin)) == mv;
  }

  /** The consumer never waits for a batch that is there, and never blocks the converter, in
      the composed system too; and between updates the transfer flag is right. */
  lemma NoDeadlock(slots: seq<A.Batch>, es: seq<Event>)
    requires slots != [] && Possible(Init(slots), es)
    ensures var m := Exec(Init(slots), es);
            && (m.adc.pc.Take? ==> m.adc.a.inUse != [])
            && (m.adc.pc.Wait? && m.adc.a.got ==> m.adc.a.inUse != [])
            && (m.adc.pc.Wait? && !m.adc.a.got ==> m.adc.a.free != [])
            && (m.adc.pc.Wait? ==> (m.dac.d.done <==> m.dac.d.bus.None?))
  {
    InitInv(slots);
    RunKeepsInv(Init(slots), es);
  }

  // ---------------------------------------------------------------- whole functions

  /** handle_adc_samples from wait to wait, without interrupts. */
  function Handle(m: Machine, txOk: bool): Machine {
    var (adc, avg) := A.Consume(m.adc);
    if avg.None? then m.(adc := adc)
    else
      var dac := D.Update(m.dac, WordOf(avg.value), txOk);
      Machine(adc, dac, m.stopped || !dac.pc.ret)
  }

  /** Main-loop statements in a row. */
  function Walk(m: Machine, txOk: bool, k: nat): Machine
    decreases k
  {
    if k == 0 then m else Walk(Step(m, txOk), txOk, k - 1)
  }

  lemma {:induction false} WalkAdd(m: Machine, txOk: bool, j: nat, k: nat)
    ensures Walk(m, txOk, j + k) == Walk(Walk(m, txOk, j), txOk, k)
    decreases j
  {
    if j > 0 {
      WalkAdd(Step(m, txOk), txOk, j - 1, k);
    }
  }

  /** Statements of the consumer before it calls DAC_update_dac. */
  predicate Averaging(a: A.Machine) {
    match a.pc
    case Wait => a.a.got && a.a.inUse != []
    case Clear => a.a.inUse != []
    case Take => a.a.inUse != []
    case Sum(slot, idx, _) => idx <= |A.SlotOf(a.a, slot).sigin|
    case Release(_, _) => true
    case Update(_) => true
    case InUpdate => false
  }

  function ToUpdate(a: A.Machine): nat
    requires Averaging(a)
  {
    match a.pc
    case Wait => |A.SlotOf(a.a, a.a.inUse[0]).sigin| + 5
    case Clear => |A.SlotOf(a.a, a.a.inUse[0]).sigin| + 4
    case Take => |A.SlotOf(a.a, a.a.inUse[0]).sigin| + 3
    case Sum(slot, idx, _) => |A.SlotOf(a.a, slot).sigin| - idx + 2
    case Release(_, _) => 1
    case Update(_) => 0
  }

  lemma {:induction false} WalkToUpdate(m: Machine, txOk: bool)
    requires Averaging(m.adc)
    ensures Walk(m, txOk, ToUpdate(m.adc)) == m.(adc := A.Steps(m.adc, ToUpdate(m.adc)))
    decreases ToUpdate(m.adc)
  {
    if !m.adc.pc.Update? {
      WalkToUpdate(Step(m, txOk), txOk);
    }
  }

  /** The statements of DAC_update_dac, and the consumer's reaction to what it returns. */
  lemma {:induction false} WalkUpdate(m: Machine, txOk: bool, left: nat) returns (k: nat)
    requires m.adc.pc.InUpdate? && D.Walk(m.dac, txOk, left).pc.Out?
    ensures var d := D.Walk(m.dac, txOk, left);
            Walk(m, txOk, k) == Machine(m.adc.(pc := A.Wait), d, m.stopped || !d.pc.ret)
    decreases left
  {
    if m.dac.pc.Out? {
      k := 1;
      assert Walk(Step(m, txOk), txOk, 0) == Step(m, txOk);
    } else {
      k := WalkUpdate(Step(m, txOk), txOk, left - 1);
      k := k + 1;
    }
  }

  /** The statements of the main loop without interrupts are the whole function, whether or
      not the flag is up and a batch is there. */
  lemma UninterruptedIsHandle(m: Machine, txOk: bool) returns (k: nat)
    requires m.adc.pc.Wait? && m.dac.pc.Out?
    ensures k > 0 && Walk(m, txOk, k) == Handle(m, txOk)
  {
    if !m.adc.a.got {
      k := 1;
      assert Walk(m, txOk, 1) == Walk(Step(m, txOk), txOk, 0);
    } else if m.adc.a.inUse == [] {
      k := 3;
      var m1, m2, m3 := m.(adc := A.Step(m.adc)), m.(adc := A.Step(A.Step(m.adc))), m.(adc := A.Step(A.Step(A.Step(m.adc))));
      assert Walk(m, txOk, 3) == Walk(m1, txOk, 2) == Walk(m2, txOk, 1) == Walk(m3, txOk, 0);
    } else {
      k := ServedIsHandle(m, txOk);
    }
  }

  lemma ServedIsHandle(m: Machine, txOk: bool) returns (k: nat)
    requires m.adc.pc.Wait? && m.dac.pc.Out? && m.adc.a.got && m.adc.a.inUse != []
    ensures k > 0 && Walk(m, txOk, k) == Handle(m, txOk)
  {
    var n := ToUpdate(m.adc);
    WalkToUpdate(m, txOk);
    AtUpdate(m.adc);
    var m1 := Walk(m, txOk, n);
    var m2 := Step(m1, txOk);
    D.UninterruptedIsUpdate(m.dac, WordOf(m1.adc.pc.avg), txOk);
    var j := WalkUpdate(m2, txOk, 6);
    k := n + (1 + j);
    WalkAdd(m, txOk, n, 1 + j);
  }

  lemma AtUpdate(a: A.Machine)
    requires a.pc.Wait? && a.a.got && a.a.inUse != []
    ensures A.Steps(a, ToUpdate(a))
            == A.Consume(a).0.(pc := A.Update(A.AverageOf(A.SlotOf(a.a, a.a.inUse[0]))))
  {
    A.UninterruptedIsConsume(a);
    var b := A.Steps(a, ToUpdate(a));
    A.StepsAdd(a, ToUpdate(a), 2);
    assert A.Steps(b, 2) == A.Steps(A.Step(b), 1) == A.Step(A.Step(b));
  }

  lemma HandleKeepsHanded(m: Machine, txOk: bool)
    requires Handed(m) && m.adc.pc.Wait? && m.dac.pc.Out?
    ensures Handed(Handle(m, txOk))
  {
    var n := Handle(m, txOk);
    if m.adc.a.got && m.adc.a.inUse != [] {
      var b := A.SlotOf(m.adc.a, m.adc.a.inUse[0]);
      HandleOffers(m, txOk, b);
      WordsAppend(m.adc.log.taken, b);
      assert Unpushed(m) == [] && Unpushed(n) == [];
    } else {
      assert n.dac == m.dac && n.adc.log == m.adc.log && Unpushed(n) == Unpushed(m);
    }
  }

  /** The word of the batch that is served is offered to the DAC queue. */
  lemma HandleOffers(m: Machine, txOk: bool, b: A.Batch)
    requires m.adc.a.got && m.adc.a.inUse != [] && b == A.SlotOf(m.adc.a, m.adc.a.inUse[0])
    ensures var n := Handle(m, txOk);
            && n.adc.log.taken == m.adc.log.taken + [b] && n.adc.pc == m.adc.pc && n.dac.pc.Out?
            && D.All(n.dac.log.pushes) == D.All(m.dac.log.pushes) + [BatchWord(b)]
  {
    UpdateOffers(m.dac, BatchWord(b), txOk);
  }

  lemma UpdateOffers(d: D.Machine, value: bv16, txOk: bool)
    ensures D.All(D.Update(d, value, txOk).log.pushes) == D.All(d.log.pushes) + [value]
  {
  }

  lemma HandleKeepsInv(m: Machine, txOk: bool)
    requires Inv(m) && m.adc.pc.Wait? && m.dac.pc.Out?
    ensures Inv(Handle(m, txOk))
  {
    AT.ConsumeKeepsInv(m.adc);
    HandleKeepsHanded(m, txOk);
    if m.adc.a.got && m.adc.a.inUse != [] {
      DT.UpdateKeepsInv(m.dac, BatchWord(A.SlotOf(m.adc.a, m.adc.a.inUse[0])), txOk);
    }
  }
}
