/** The main results about the sample path of app_logic.c. */
module AdcTheorems {
  import opened Common
  import opened Conversion
  import opened AdcSpec
  import M = AdcModule

  lemma InitInv(slots: seq<Batch>)
    requires slots != []
    ensures Inv(Init(slots))
  {
    IotaCovers(|slots|);
    assert Contents(slots, []) == [];
  }

  lemma StepKeepsOwned(m: Machine)
    requires Owned(m)
    ensures Owned(Step(m))
  {
    var n := Step(m);
    if m.pc.Take? && m.a.inUse != [] {
      assert m.a.inUse == [m.a.inUse[0]] + m.a.inUse[1..];
    } else if m.pc.Release? {
      assert n.a.free == m.a.free + Held(m.pc);
    } else {
      assert n.a.free == m.a.free && n.a.inUse == m.a.inUse && Held(n.pc) == Held(m.pc);
    }
  }

  lemma TakeKeepsLinked(m: Machine)
    requires Linked(m) && m.pc.Take? && m.a.inUse != []
    ensures Linked(Step(m))
  {
    ContentsHead(m.a.slots, m.a.inUse);
    MoveHead(m.log.taken, SlotOf(m.a, m.a.inUse[0]), Contents(m.a.slots, m.a.inUse[1..]), m.log.accepted);
  }

  lemma ContentsHead(slots: seq<Batch>, q: seq<nat>)
    requires q != []
    ensures Contents(slots, q) == [if q[0] < |slots| then slots[q[0]] else Batch([], [])] + Contents(slots, q[1..])
  {
  }

  lemma MoveHead(done: seq<Batch>, x: Batch, rest: seq<Batch>, all: seq<Batch>)
    requires done + ([x] + rest) == all
    ensures done + [x] + rest == all
  {
  }

  lemma OtherStep(m: Machine)
    requires !(m.pc.Take? && m.a.inUse != [])
    ensures Step(m).log == m.log && Step(m).a.slots == m.a.slots && Step(m).a.inUse == m.a.inUse
  {
  }

  lemma StepKeepsLinked(m: Machine)
    requires Linked(m)
    ensures Linked(Step(m))
  {
    if m.pc.Take? && m.a.inUse != [] {
      TakeKeepsLinked(m);
    } else {
      OtherStep(m);
    }
  }

  lemma StepKeepsHandOk(m: Machine)
    requires HandOk(m)
    ensures HandOk(Step(m))
  {
    if m.pc.Sum? {
      var s := SlotOf(m.a, m.pc.slot).sigin;
      if m.pc.idx < |s| {
        assert s[..m.pc.idx + 1][..m.pc.idx] == s[..m.pc.idx];
      } else {
        assert s[..m.pc.idx] == s;
      }
    }
  }

  lemma StepKeepsFlagOk(m: Machine)
    requires Owned(m) && FlagOk(m)
    ensures FlagOk(Step(m))
  {
  }

  /** The callback writes only into a slot that nobody holds or waits for. */
  lemma CallbackKeepsInv(m: Machine, raw: seq<int>)
    requires Inv(m)
    ensures Inv(Callback(m, raw))
  {
    if m.a.free != [] {
      CallbackKeepsOwned(m, raw);
      CallbackKeepsContents(m, raw);
      assert |m.a.inUse| < |m.a.slots|;
    }
  }

  lemma CallbackKeepsOwned(m: Machine, raw: seq<int>)
    requires Owned(m) && m.a.free != []
    ensures Owned(Callback(m, raw))
  {
    assert m.a.free == [m.a.free[0]] + m.a.free[1..];
    assert Callback(m, raw).a.inUse == m.a.inUse + [m.a.free[0]];
  }

  lemma CallbackKeepsContents(m: Machine, raw: seq<int>)
    requires Owned(m) && Linked(m) && HandOk(m) && m.a.free != []
    ensures Linked(Callback(m, raw)) && HandOk(Callback(m, raw))
  {
    var n, slot := Callback(m, raw), m.a.free[0];
    PartitionFacts(|m.a.slots|, m.a.free, m.a.inUse, Held(m.pc));
    assert slot in m.a.free;
    assert forall i :: 0 <= i < |m.a.inUse| ==> m.a.inUse[i] in m.a.inUse;
    assert Contents(n.a.slots, n.a.inUse) == Contents(m.a.slots, m.a.inUse) + [Deinterleave(raw)];
    if Held(m.pc) != [] {
      assert m.pc.slot in Held(m.pc);
      assert SlotOf(n.a, m.pc.slot) == SlotOf(m.a, m.pc.slot);
    }
  }

  lemma NextKeepsInv(m: Machine, e: Event)
    requires Inv(m)
    ensures Inv(Next(m, e))
  {
    match e
    case Main =>
      StepKeepsOwned(m);
      StepKeepsLinked(m);
      StepKeepsHandOk(m);
      StepKeepsFlagOk(m);
    case Irq(raw) => CallbackKeepsInv(m, raw);
  }

  lemma {:induction false} RunKeepsInv(m: Machine, es: seq<Event>)
    requires Inv(m)
    ensures Inv(Exec(m, es))
    decreases es
  {
    if es != [] {
      NextKeepsInv(m, es[0]);
      RunKeepsInv(Next(m, es[0]), es[1..]);
    }
  }

  // ---------------------------------------------------------------- whole functions

  lemma ConsumeKeepsInv(m: Machine)
    requires Inv(m) && m.pc.Wait?
    ensures Inv(Consume(m).0)
  {
    UninterruptedIsConsume(m);
    StepsKeepInv(m, Duration(m));
  }

  /** What a callback does: it fills and queues the oldest free slot and raises the flag, or
      does nothing at all. */
  predicate Stored(m: Machine, n: Machine, raw: seq<int>) {
    if m.a.free == [] then n == m
    else
      var slot := m.a.free[0];
      && slot < |m.a.slots| == |n.a.slots|
      && n.a.got && n.a.free == m.a.free[1..] && n.a.inUse == m.a.inUse + [slot]
      && Separated(n.a.slots[slot], raw)
      && (forall i :: 0 <= i < |m.a.slots| && i != slot ==> n.a.slots[i] == m.a.slots[i])
      && n.log.taken == m.log.taken && n.log.accepted == m.log.accepted + [n.a.slots[slot]]
  }

  /** The two channels of a conversion. */
  predicate Separated(b: Batch, raw: seq<int>) {
    |b.sigin| == |b.temp| == |raw| / 2
    && forall k :: 0 <= k < |raw| / 2 ==> b.temp[k] == raw[2 * k] && b.sigin[k] == raw[2 * k + 1]
  }

  lemma CallbackStores(m: Machine, raw: seq<int>)
    requires Inv(m)
    ensures Stored(m, Callback(m, raw), raw)
  {
    if m.a.free != [] {
      PartitionFacts(|m.a.slots|, m.a.free, m.a.inUse, Held(m.pc));
      assert m.a.free[0] in m.a.free;
    }
  }

  /** What one call does: with the flag down nothing; otherwise it clears the flag, takes the
      oldest batch, hands its mean on and frees its slot. */
  predicate Served(m: Machine, n: Machine, avg: Option<int>) {
    if !m.a.got then n == m && avg.None?
    else
      && m.a.inUse != [] && m.a.inUse[0] < |m.a.slots| && avg.Some? && !n.a.got
      && n.a.inUse == m.a.inUse[1..] && n.a.free == m.a.free + [m.a.inUse[0]] && n.a.slots == m.a.slots
      && n.log.accepted == m.log.accepted && n.log.taken == m.log.taken + [m.a.slots[m.a.inUse[0]]]
      && var s := m.a.slots[m.a.inUse[0]].sigin;
         s != [] ==> avg.value == Mean(s) && (AllEqual(s) ==> avg.value == s[0])
  }

  lemma ConsumeServes(m: Machine)
    requires Inv(m) && m.pc.Wait?
    ensures Served(m, Consume(m).0, Consume(m).1)
  {
    if m.a.got {
      PartitionFacts(|m.a.slots|, m.a.free, m.a.inUse, Held(m.pc));
      assert m.a.inUse[0] in m.a.inUse;
      var s := m.a.slots[m.a.inUse[0]].sigin;
      if s != [] && AllEqual(s) {
        MeanOfEqual(s);
      }
    }
  }

  lemma {:induction false} StepsKeepInv(m: Machine, k: nat)
    requires Inv(m)
    ensures Inv(Steps(m, k))
    decreases k
  {
    if k > 0 {
      NextKeepsInv(m, Main);
      StepsKeepInv(Step(m), k - 1);
    }
  }

  // ---------------------------------------------------------------- every run

  /** No deadlock with a one-bit flag: wherever callbacks fall, a consumer that waits with
      the flag up finds a batch (the branch at line 214 is never taken), and with the flag
      down there is a free slot, so that the next callback raises it. */
  lemma NoDeadlock(slots: seq<Batch>, es: seq<Event>, raw: seq<int>)
    requires slots != []
    ensures var m := Exec(Init(slots), es);
            && (m.pc.Take? ==> m.a.inUse != [])
            && (m.pc.Wait? && m.a.got ==> m.a.inUse != [] && Step(Step(m)).pc.Take?)
            && (m.pc.Wait? && !m.a.got ==> m.a.free != [] && Callback(m, raw).a.got)
  {
    InitInv(slots);
    RunKeepsInv(Init(slots), es);
  }

  /** Slot conservation and first-in first-out delivery for any interleaving. */
  lemma SlotsConserved(slots: seq<Batch>, es: seq<Event>)
    requires slots != []
    ensures var m := Exec(Init(slots), es);
            && multiset(m.a.free) + multiset(m.a.inUse) + multiset(Held(m.pc)) == multiset(Iota(|m.a.slots|))
            && m.log.taken + Contents(m.a.slots, m.a.inUse) == m.log.accepted
            && (Held(m.pc) != [] ==> m.log.taken != [] && SlotOf(m.a, m.pc.slot) == m.log.taken[|m.log.taken| - 1])
  {
    InitInv(slots);
    RunKeepsInv(Init(slots), es);
    var m := Exec(Init(slots), es);
    PartitionIsPermutation(|m.a.slots|, m.a.free, m.a.inUse, Held(m.pc));
  }

  lemma NextKeepsBacklog(m: Machine, e: Event)
    requires Inv(m)
    ensures Backlog(Next(m, e)) >= Backlog(m)
  {
  }

  /** The price of the one-bit flag: batches left over because two callbacks fell on one
      wake-up are never caught up on; the backlog a waiting consumer sees never shrinks. */
  lemma {:induction false} BacklogNeverShrinks(m: Machine, es: seq<Event>)
    requires Inv(m)
    ensures Backlog(Exec(m, es)) >= Backlog(m)
    ensures m.pc.Wait? && !m.a.got && Exec(m, es).pc.Wait? && !Exec(m, es).a.got
            ==> |Exec(m, es).a.inUse| >= |m.a.inUse|
    decreases es
  {
    if es != [] {
      NextKeepsInv(m, es[0]);
      NextKeepsBacklog(m, es[0]);
      BacklogNeverShrinks(Next(m, es[0]), es[1..]);
    }
  }

  function Mains(k: nat): (es: seq<Event>)
    ensures |es| == k && forall i :: 0 <= i < k ==> es[i] == Main
  {
    seq(k, _ => Main)
  }

  lemma {:induction false} ExecMains(m: Machine, k: nat)
    ensures Exec(m, Mains(k)) == Steps(m, k)
    decreases k
  {
    if k > 0 {
      assert Mains(k)[1..] == Mains(k - 1);
      ExecMains(Step(m), k - 1);
    }
  }

  /** Such a backlog arises: two callbacks before the consumer runs, and it waits again with
      the second batch left in the queue and the flag down. */
  lemma BacklogArises(slots: seq<Batch>, raw1: seq<int>, raw2: seq<int>) returns (es: seq<Event>)
    requires |slots| >= 2
    ensures var m := Exec(Init(slots), es);
            && m.pc.Wait? && !m.a.got && m.a.inUse == [1]
            && m.log == Log([Deinterleave(raw1), Deinterleave(raw2)], [Deinterleave(raw1)])
  {
    var m1 := Callback(Init(slots), raw1);
    var m2 := Callback(m1, raw2);
    assert m1.a.inUse == [0] && m1.a.free[0] == 1 && m2.a.inUse == [0, 1];
    var k := |SlotOf(m2.a, 0).sigin| + 7;
    UninterruptedIsConsume(m2);
    ExecMains(m2, k);
    var rest := [Irq(raw2)] + Mains(k);
    es := [Irq(raw1)] + rest;
    assert es[1..] == rest && rest[1..] == Mains(k);
    assert Exec(Init(slots), es) == Exec(m1, rest) == Exec(m2, Mains(k));
  }

  /** It stays below the number of slots all the same. */
  lemma BacklogBounded(m: Machine)
    requires Inv(m) && m.pc.Wait? && !m.a.got
    ensures |m.a.inUse| < |m.a.slots|
  {
  }

  /** In every run the average handed on is the mean of the batch taken last, however often
      callbacks interrupted the summing loop. */
  lemma AverageIsMean(slots: seq<Batch>, es: seq<Event>)
    requires slots != [] && Exec(Init(slots), es).pc.Update?
    ensures var m := Exec(Init(slots), es);
            && m.log.taken != [] && m.log.taken <= m.log.accepted
            && var s := m.log.taken[|m.log.taken| - 1].sigin; s != [] ==> m.pc.avg == Mean(s)
  {
    InitInv(slots);
    RunKeepsInv(Init(slots), es);
  }

  // ---------------------------------------------------------------- the divisor

  /** The loop over no samples is done and the division at line 197 is next. */
  predicate DividesByZero(m: Machine) {
    m.pc.Sum? && SlotOf(m.a, m.pc.slot).sigin == []
  }

  /** What the k-th event of adc_module.c reports for a configured sample count. */
  function Reported(configured: nat, k: nat): M.Samples {
    M.OnDone(M.AfterDone(M.Started(M.Clamp(configured)), k)).1
  }

  /** The callbacks of the run get what the ADC module reports, from its k-th event on. */
  predicate Delivered(configured: nat, es: seq<Event>, k: nat)
    decreases es
  {
    es == [] || (if es[0].Irq? then |es[0].raw| == Reported(configured, k).size && Delivered(configured, es[1..], k + 1)
                 else Delivered(configured, es[1..], k))
  }

  predicate AllOfSize(bs: seq<Batch>, size: nat) {
    forall i :: 0 <= i < |bs| ==> |bs[i].sigin| == size
  }

  lemma {:induction false} RunKeepsSize(m: Machine, configured: nat, es: seq<Event>, k: nat)
    requires Delivered(configured, es, k) && AllOfSize(m.log.accepted, M.Clamp(configured))
    ensures AllOfSize(Exec(m, es).log.accepted, M.Clamp(configured))
    decreases es
  {
    if es != [] {
      if es[0].Irq? {
        M.BuffersAlternate(configured, k);
        RunKeepsSize(Callback(m, es[0].raw), configured, es[1..], k + 1);
      } else {
        RunKeepsSize(Step(m), configured, es[1..], k);
      }
    }
  }

  /** Every batch that is summed has as many samples as were configured, clamped. */
  lemma SummedSize(slots: seq<Batch>, configured: nat, es: seq<Event>)
    requires slots != [] && Delivered(configured, es, 0)
    ensures var m := Exec(Init(slots), es);
            m.pc.Sum? ==> |SlotOf(m.a, m.pc.slot).sigin| == M.Clamp(configured)
  {
    InitInv(slots);
    RunKeepsInv(Init(slots), es);
    RunKeepsSize(Init(slots), configured, es, 0);
    var m := Exec(Init(slots), es);
    if m.pc.Sum? {
      assert m.log.accepted[|m.log.taken| - 1] == SlotOf(m.a, m.pc.slot);
    }
  }

  /** The fault: with a configured count of zero the very first batch is divided by zero. */
  lemma ZeroCountRun(slots: seq<Batch>) returns (es: seq<Event>)
    requires slots != []
    ensures Delivered(0, es, 0) && DividesByZero(Exec(Init(slots), es))
  {
    es := [Irq([]), Main, Main, Main];
    M.BuffersAlternate(0, 0);
    var m1 := Callback(Init(slots), []);
    var m4 := Step(Step(Step(m1)));
    assert m4.pc == Sum(0, 0, 0);
    assert es[1..] == [Main, Main, Main] && es[1..][1..] == [Main, Main] && es[1..][1..][1..] == [Main];
    assert Exec(m1, [Main, Main, Main]) == Exec(Step(m1), [Main, Main]) == Exec(Step(Step(m1)), [Main]) == m4;
    assert Delivered(0, [Main, Main, Main], 1) by {
      assert Delivered(0, [Main], 1) && [Main, Main][1..] == [Main] && [Main, Main, Main][1..] == [Main, Main];
    }
  }

  /** A batch that is summed is divided by zero exactly if a count of zero is configured. */
  lemma SummedDivides(slots: seq<Batch>, configured: nat, es: seq<Event>)
    requires slots != [] && Delivered(configured, es, 0)
    ensures var m := Exec(Init(slots), es); DividesByZero(m) <==> m.pc.Sum? && configured == 0
  {
    SummedSize(slots, configured, es);
  }

  predicate Faults(slots: seq<Batch>, configured: nat, es: seq<Event>) {
    Delivered(configured, es, 0) && DividesByZero(Exec(Init(slots), es))
  }

  /** Some run divides by zero exactly when a sample count of zero is configured, which
      ADC_init does not reject. */
  lemma DivisorZeroExact(slots: seq<Batch>, configured: nat)
    requires slots != []
    ensures (exists es :: Faults(slots, configured, es)) <==> configured == 0
  {
    if configured == 0 {
      var es := ZeroCountRun(slots);
      assert Faults(slots, configured, es);
    } else {
      forall es | Faults(slots, configured, es)
        ensures false
      {
        SummedDivides(slots, configured, es);
      }
    }
  }
}
