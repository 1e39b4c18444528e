/** The sample path of app_logic.c as a transition system: the consumer protothread
    statement by statement, with the ADC callback between any two statements. */
module AdcSpec {
  import opened Common
  import opened Conversion

  /** APP_LOGIC_adc_data_t; samples_nbr is the length of both lists. */
  datatype Batch = Batch(sigin: seq<int>, temp: seq<int>)

  /** The flag, the ping-pong queues of slot numbers and the slots' contents. */
  datatype Adc = Adc(got: bool, free: seq<nat>, inUse: seq<nat>, slots: seq<Batch>)

  /** Callbacks that found a free slot, and slots the consumer took, in order. */
  datatype Log = Log(accepted: seq<Batch>, taken: seq<Batch>)

  datatype Pc =
    | Wait
    | Clear
    | Take
    | Sum(slot: nat, idx: nat, acc: int)
    | Release(slot: nat, avg: int)
    | Update(avg: int)
    | InUpdate

  datatype Machine = Machine(a: Adc, log: Log, pc: Pc)

  /** What the callback stores: the first converted channel is the temperature. */
  function Deinterleave(raw: seq<int>): (b: Batch)
    ensures |b.sigin| == |b.temp| == |raw| / 2
    ensures forall k :: 0 <= k < |raw| / 2 ==> b.temp[k] == raw[2 * k] && b.sigin[k] == raw[2 * k + 1]
  {
    var n := |raw| / 2;
    Batch(seq(n, k requires 0 <= k < n => raw[2 * k + 1]), seq(n, k requires 0 <= k < n => raw[2 * k]))
  }

  function SlotOf(a: Adc, slot: nat): Batch {
    if slot < |a.slots| then a.slots[slot] else Batch([], [])
  }

  /** APP_LOGIC_adc_samples_callback */
  function Callback(m: Machine, raw: seq<int>): Machine {
    if m.a.free == [] then m
    else
      var slot, batch := m.a.free[0], Deinterleave(raw);
      var slots := if slot < |m.a.slots| then m.a.slots[slot := batch] else m.a.slots;
      Machine(Adc(true, m.a.free[1..], Pushed(m.a.inUse, slot, |m.a.slots|), slots),
              m.log.(accepted := m.log.accepted + [batch]), m.pc)
  }

  /** The quotient at line 197. Without samples the source divides by zero, and what follows
      is undefined; AdcTheorems.DivisorZeroExact says when that can be. */
  function Average(acc: int, n: nat): int {
    if n > 0 then Quot(acc, n) else 0
  }

  /** The next statement of handle_adc_samples. */
  function Step(m: Machine): Machine {
    var a := m.a;
    match m.pc
    case Wait => m.(pc := if a.got then Clear else Wait)
    case Clear => Machine(a.(got := false), m.log, Take)
    case Take =>
      if a.inUse == [] then m.(pc := Wait)
      else Machine(a.(inUse := a.inUse[1..]),
                   m.log.(taken := m.log.taken + [SlotOf(a, a.inUse[0])]), Sum(a.inUse[0], 0, 0))
    case Sum(slot, idx, acc) =>
      var s := SlotOf(a, slot).sigin;
      m.(pc := if idx < |s| then Sum(slot, idx + 1, acc + s[idx]) else Release(slot, Average(acc, |s|)))
    case Release(slot, avg) => Machine(a.(free := Pushed(a.free, slot, |a.slots|)), m.log, Update(avg))
    case Update(_) => m.(pc := InUpdate)
    case InUpdate => m.(pc := Wait)
  }

  datatype Event = Main | Irq(raw: seq<int>)

  function Next(m: Machine, e: Event): Machine {
    match e
    case Main => Step(m)
    case Irq(raw) => Callback(m, raw)
  }

  function Exec(m: Machine, es: seq<Event>): Machine
    decreases es
  {
    if es == [] then m else Exec(Next(m, es[0]), es[1..])
  }

  function Init(slots: seq<Batch>): Machine {
    Machine(Adc(false, Iota(|slots|), [], slots), Log([], []), Wait)
  }

  // ---------------------------------------------------------------- whole functions

  /** One run of handle_adc_samples without interrupts, and the average it hands to the DAC. */
  function Consume(m: Machine): (Machine, Option<int>) {
    var a := m.a;
    if !a.got then (m, None)
    else if a.inUse == [] then (m.(a := a.(got := false)), None)
    else
      var slot := a.inUse[0];
      var batch := SlotOf(a, slot);
      (Machine(Adc(false, Pushed(a.free, slot, |a.slots|), a.inUse[1..], a.slots),
               m.log.(taken := m.log.taken + [batch]), m.pc),
       Some(AverageOf(batch)))
  }

  function Steps(m: Machine, k: nat): Machine
    decreases k
  {
    if k == 0 then m else Steps(Step(m), k - 1)
  }

  /** The summing loop adds up the rest of the batch. */
  lemma {:induction false} SumLoop(m: Machine)
    requires m.pc.Sum? && m.pc.idx <= |SlotOf(m.a, m.pc.slot).sigin|
    requires m.pc.acc == Conversion.Sum(SlotOf(m.a, m.pc.slot).sigin[..m.pc.idx])
    ensures var b := SlotOf(m.a, m.pc.slot);
            Steps(m, |b.sigin| - m.pc.idx + 1) == m.(pc := Release(m.pc.slot, AverageOf(b)))
    decreases |SlotOf(m.a, m.pc.slot).sigin| - m.pc.idx
  {
    var s := SlotOf(m.a, m.pc.slot).sigin;
    if m.pc.idx < |s| {
      assert s[..m.pc.idx + 1][..m.pc.idx] == s[..m.pc.idx];
      SumLoop(Step(m));
    } else {
      assert s[..m.pc.idx] == s;
      assert Steps(Step(m), 0) == Step(m);
    }
  }

  lemma {:induction false} StepsAdd(m: Machine, j: nat, k: nat)
    ensures Steps(m, j + k) == Steps(Steps(m, j), k)
    decreases j
  {
    if j > 0 {
      StepsAdd(Step(m), j - 1, k);
    }
  }

  /** The statements of one call that starts at the wait: with the flag down it stays there,
      and without a batch the flag is cleared and it waits again. */
  function Duration(m: Machine): nat {
    if !m.a.got then 1 else if m.a.inUse == [] then 3 else |SlotOf(m.a, m.a.inUse[0]).sigin| + 7
  }

  /** The statements without interrupts are the whole function, whether or not the flag is up
      and a batch is there; with a batch of n samples the DAC update comes after n + 5. */
  lemma UninterruptedIsConsume(m: Machine)
    requires m.pc.Wait?
    ensures Steps(m, Duration(m)) == Consume(m).0
    ensures m.a.got && m.a.inUse != [] ==>
              var b := SlotOf(m.a, m.a.inUse[0]);
              Steps(m, |b.sigin| + 5).pc == Update(AverageOf(b))
  {
    if !m.a.got {
      assert Steps(m, 1) == Steps(Step(m), 0);
    } else if m.a.inUse == [] {
      assert Steps(m, 3) == Steps(Step(m), 2) == Steps(Step(Step(m)), 1) == Step(Step(Step(m)));
    } else {
      ServedIsConsume(m);
    }
  }

  lemma ServedIsConsume(m: Machine)
    requires m.pc.Wait? && m.a.got && m.a.inUse != []
    ensures var b := SlotOf(m.a, m.a.inUse[0]); var n := |b.sigin|;
            && Steps(m, n + 5).pc == Update(AverageOf(b))
            && Steps(m, n + 7) == Consume(m).0
  {
    var b := SlotOf(m.a, m.a.inUse[0]);
    var n := |b.sigin|;
    var m3 := Step(Step(Step(m)));
    assert Steps(m, 3) == Steps(Step(m), 2) == Steps(Step(Step(m)), 1) == m3;
    assert b.sigin[..0] == [];
    SumLoop(m3);
    var m4 := Steps(m3, n + 1);
    StepsAdd(m, 3, n + 1);
    StepsAdd(m, n + 4, 1);
    StepsAdd(m, n + 4, 3);
    assert Steps(m4, 1) == Step(m4);
    assert Steps(m4, 3) == Steps(Step(m4), 2) == Steps(Step(Step(m4)), 1) == Step(Step(Step(m4)));
  }

  function AverageOf(b: Batch): int {
    Average(Conversion.Sum(b.sigin), |b.sigin|)
  }

  // ---------------------------------------------------------------- the invariant

  function Held(pc: Pc): seq<nat> {
    if pc.Sum? || pc.Release? then [pc.slot] else []
  }

  predicate Owned(m: Machine) {
    Partition(|m.a.slots|, m.a.free, m.a.inUse, Held(m.pc))
  }

  function Contents(slots: seq<Batch>, q: seq<nat>): (s: seq<Batch>)
    ensures |s| == |q|
    ensures forall i :: 0 <= i < |q| ==> s[i] == if q[i] < |slots| then slots[q[i]] else Batch([], [])
  {
    seq(|q|, i requires 0 <= i < |q| => if q[i] < |slots| then slots[q[i]] else Batch([], []))
  }

  /** The in-use queue holds the accepted batches that were not taken yet, in order. */
  predicate Linked(m: Machine) {
    m.log.taken + Contents(m.a.slots, m.a.inUse) == m.log.accepted
  }

  /** The slot in hand holds the batch taken last, however often callbacks interrupt. */
  predicate HandOk(m: Machine) {
    var pc, taken := m.pc, m.log.taken;
    && (Held(pc) != [] ==> taken != [] && SlotOf(m.a, pc.slot) == taken[|taken| - 1])
    && (pc.Sum? ==> pc.idx <= |SlotOf(m.a, pc.slot).sigin|
                    && pc.acc == Conversion.Sum(SlotOf(m.a, pc.slot).sigin[..pc.idx]))
    && (pc.Release? || pc.Update? ==> taken != [] && pc.avg == AverageOf(taken[|taken| - 1]))
  }

  /** What the one-bit flag promises at each statement. */
  predicate FlagOk(m: Machine) {
    var a, pc := m.a, m.pc;
    && (pc.Wait? || pc.Update? || pc.InUpdate? ==> (a.got ==> a.inUse != []) && (!a.got ==> a.free != []))
    && (pc.Clear? ==> a.inUse != [])
    && (pc.Take? ==> |a.inUse| >= if a.got then 2 else 1)
    && (pc.Sum? || pc.Release? ==> (a.got ==> a.inUse != []))
  }

  predicate Inv(m: Machine) {
    Owned(m) && Linked(m) && HandOk(m) && FlagOk(m)
  }

  /** Batches that will be left in the in-use queue once the pending flag has been served. */
  function Backlog(m: Machine): int {
    |m.a.inUse| - (if m.pc.Clear? || m.pc.Take? then 1 else 0) - (if m.a.got && !m.pc.Clear? then 1 else 0)
  }

  /** What the converter delivers: up to ten 10-bit samples of each of two channels. */
  predicate RawOk(raw: seq<int>) {
    2 <= |raw| <= 20 && |raw| % 2 == 0 && forall i :: 0 <= i < |raw| ==> 0 <= raw[i] < ADC_RESOLUTION
  }

  predicate AcceptedOk(log: Log) {
    forall i :: 0 <= i < |log.accepted| ==> SamplesOk(log.accepted[i].sigin)
  }
}
