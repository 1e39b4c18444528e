/** app_logic.c as it is: the flag, the slot pool and the accumulators, updated in place by
    the ADC callback and the averaging protothread. */
module AppLogic {
  import opened Common
  import opened Conversion
  import opened PingPong
  import opened AdcModule
  import A = AdcSpec
  import AT = AdcTheorems

  /** sizeof(APP_LOGIC_adc_data_t): two arrays of ten int16_t and a uint16_t, packed. */
  const ITEM_SIZE: nat := 42
  /** ADC_SAMPLES_BUFF_DESCR_COUNT */
  const SLOTS: nat := 5

  /** A slot pointer as a row of the pool. */
  function RowOf(ptr: nat): nat {
    ptr / ITEM_SIZE
  }

  function RowsOf(ptrs: seq<nat>): (s: seq<nat>)
    ensures |s| == |ptrs| && forall i :: 0 <= i < |s| ==> s[i] == RowOf(ptrs[i])
  {
    seq(|ptrs|, i requires 0 <= i < |ptrs| => RowOf(ptrs[i]))
  }

  predicate SlotPtr(ptr: nat) {
    ptr % ITEM_SIZE == 0 && RowOf(ptr) < SLOTS
  }

  predicate SlotPtrs(ptrs: seq<nat>) {
    forall i :: 0 <= i < |ptrs| ==> SlotPtr(ptrs[i])
  }

  /** The slot pool: APP_LOGIC_adc_data_t[5][1], one row for each slot. */
  class Pool {
    const sigin: array2<int>
    const temp: array2<int>
    const samplesNbr: array<nat>

    ghost predicate Valid()
      reads Repr()
    {
      && sigin != temp
      && sigin.Length0 == temp.Length0 == samplesNbr.Length == SLOTS
      && sigin.Length1 == temp.Length1 == MAX_SAMPLES
      && forall i :: 0 <= i < SLOTS ==> samplesNbr[i] <= MAX_SAMPLES
    }

    ghost function Repr(): set<object> {
      {this, sigin, temp, samplesNbr}
    }

    ghost function Slot(i: nat): (b: A.Batch)
      requires Valid() && i < SLOTS
      reads Repr()
      ensures |b.sigin| == |b.temp| == samplesNbr[i]
      ensures forall k :: 0 <= k < samplesNbr[i] ==> b.sigin[k] == sigin[i, k] && b.temp[k] == temp[i, k]
    {
      A.Batch(Prefix(sigin, i, samplesNbr[i]), Prefix(temp, i, samplesNbr[i]))
    }

    ghost function Slots(): (s: seq<A.Batch>)
      requires Valid()
      reads Repr()
      ensures |s| == SLOTS && forall i :: 0 <= i < SLOTS ==> s[i] == Slot(i)
    {
      [Slot(0), Slot(1), Slot(2), Slot(3), Slot(4)]
    }

    constructor ()
      ensures Valid() && fresh(Repr())
    {
      sigin := new int[SLOTS, MAX_SAMPLES];
      temp := new int[SLOTS, MAX_SAMPLES];
      samplesNbr := new nat[SLOTS](_ => 0);
    }

    /** Lines 122-130: the loop that separates the two channels. */
    method CopySamples(row: nat, buff: array2<int>, descr: Samples)
      requires Valid() && row < SLOTS && ReportOk(buff, descr) && buff != sigin && buff != temp
      modifies sigin, temp, samplesNbr
      ensures Valid()
      ensures Slots() == old(Slots())[row := A.Deinterleave(RawOf(buff, descr))]
    {
      CopyLoop(row, buff, descr);
      samplesNbr[row] := descr.size / 2;
      assert Slot(row) == A.Deinterleave(RawOf(buff, descr));
      assert forall i :: 0 <= i < SLOTS && i != row ==> Slot(i) == old(Slot(i));
    }

    method CopyLoop(row: nat, buff: array2<int>, descr: Samples)
      requires Valid() && row < SLOTS && ReportOk(buff, descr) && buff != sigin && buff != temp
      modifies sigin, temp
      ensures forall i, k :: 0 <= i < SLOTS && i != row && 0 <= k < MAX_SAMPLES
                             ==> sigin[i, k] == old(sigin[i, k]) && temp[i, k] == old(temp[i, k])
      ensures forall k :: 0 <= k < descr.size / 2
                          ==> sigin[row, k] == buff[descr.row, 2 * k + 1] && temp[row, k] == buff[descr.row, 2 * k]
    {
      var siginRidx, tempRidx, widx := descr.sigFirst, descr.tempFirst, 0;
      while siginRidx < descr.size
        invariant siginRidx == 2 * widx + 1 && tempRidx == 2 * widx && widx <= descr.size / 2
        invariant forall i, k :: 0 <= i < SLOTS && i != row && 0 <= k < MAX_SAMPLES
                                 ==> sigin[i, k] == old(sigin[i, k]) && temp[i, k] == old(temp[i, k])
        invariant forall k :: 0 <= k < widx
                              ==> sigin[row, k] == buff[descr.row, 2 * k + 1] && temp[row, k] == buff[descr.row, 2 * k]
      {
        sigin[row, widx] := buff[descr.row, siginRidx];
        temp[row, widx] := buff[descr.row, tempRidx];
        siginRidx, tempRidx, widx := siginRidx + 2, tempRidx + 2, widx + 1;
      }
    }

    /** Lines 184-198: the summing loop and the two divisions. */
    method Averages(row: nat) returns (siginAvg: int, tempAvg: int)
      requires Valid() && row < SLOTS && samplesNbr[row] > 0
      ensures siginAvg == A.AverageOf(Slot(row)) == Mean(Slot(row).sigin)
      ensures tempAvg == Mean(Slot(row).temp)
      ensures AllEqual(Slot(row).sigin) ==> siginAvg == sigin[row, 0]
      ensures AllEqual(Slot(row).temp) ==> tempAvg == temp[row, 0]
    {
      siginAvg, tempAvg := 0, 0;
      var idx := 0;
      ghost var b := Slot(row);
      while idx < samplesNbr[row]
        invariant idx <= samplesNbr[row]
        invariant siginAvg == Sum(b.sigin[..idx]) && tempAvg == Sum(b.temp[..idx])
      {
        siginAvg := siginAvg + sigin[row, idx];
        tempAvg := tempAvg + temp[row, idx];
        assert b.sigin[..idx + 1][..idx] == b.sigin[..idx] && b.temp[..idx + 1][..idx] == b.temp[..idx];
        idx := idx + 1;
      }
      assert b.sigin[..idx] == b.sigin && b.temp[..idx] == b.temp;
      siginAvg, tempAvg := Quot(siginAvg, samplesNbr[row]), Quot(tempAvg, samplesNbr[row]);
      if AllEqual(b.sigin) {
        MeanOfEqual(b.sigin);
      }
      if AllEqual(b.temp) {
        MeanOfEqual(b.temp);
      }
    }
  }

  /** What the ADC module reports: a row of its buffer with the channels interleaved. */
  predicate ReportOk(buff: array2<int>, descr: Samples) {
    && descr.row < buff.Length0 && descr.size <= buff.Length1
    && descr.size <= CHANNELS * MAX_SAMPLES
    && descr.tempFirst == 0 && descr.sigFirst == 1
  }

  ghost function RawOf(buff: array2<int>, descr: Samples): seq<int>
    requires ReportOk(buff, descr)
    reads buff
  {
    Prefix(buff, descr.row, descr.size)
  }

  /** The first n elements of a row. */
  ghost function Prefix(a: array2<int>, row: nat, n: nat): (s: seq<int>)
    requires row < a.Length0 && n <= a.Length1
    reads a
    ensures |s| == n && forall k :: 0 <= k < n ==> s[k] == a[row, k]
  {
    seq(n, k requires 0 <= k < n reads a => a[row, k])
  }

  class App {
    const buffers: Buffers
    const pool: Pool
    var gotAdc: bool
    var siginAvg: int
    var tempAvg: int
    ghost var log: A.Log

    ghost function Repr(): set<object> {
      {this} + buffers.Repr() + pool.Repr()
    }

    ghost predicate Shape()
      reads this, buffers, Repr()
    {
      && buffers.Valid() && pool.Valid()
      && buffers.Repr() !! pool.Repr()
      && this !in buffers.Repr() + pool.Repr()
      && buffers !in Repr()
      && buffers.rows == SLOTS
      && SlotPtrs(buffers.Free()) && SlotPtrs(buffers.InUse())
    }

    ghost function State(): A.Machine
      requires Shape()
      reads this, buffers, Repr()
    {
      A.Machine(A.Adc(gotAdc, RowsOf(buffers.Free()), RowsOf(buffers.InUse()), pool.Slots()), log, A.Wait)
    }

    ghost predicate Valid()
      reads this, buffers, Repr()
    {
      Shape() && A.Inv(State()) && A.AcceptedOk(log)
    }

    /** Writes elsewhere leave the module alone. */
    twostate lemma Untouched()
      requires old(Valid()) && unchanged(Repr()) && unchanged(buffers)
      ensures Valid() && State() == old(State())
    {
    }

    /** APP_LOGIC_init without the start of the conversions. */
    constructor ()
      ensures Valid() && fresh(Repr()) && fresh(buffers)
      ensures State() == A.Init(pool.Slots())
    {
      buffers := new Buffers(ITEM_SIZE, SLOTS, 1);
      pool := new Pool();
      gotAdc, siginAvg, tempAvg := false, 0, 0;
      log := A.Log([], []);
      new;
      assert fresh({this} + buffers.Repr() + pool.Repr());
      InitRows();
      FirstState();
    }

    lemma FirstState()
      requires Shape() && !gotAdc && log == A.Log([], [])
      requires buffers.Free() == Offsets(SLOTS, ITEM_SIZE, 1) && buffers.InUse() == []
      ensures Valid() && State() == A.Init(pool.Slots())
    {
      InitRows();
      AT.InitInv(pool.Slots());
    }

    method PopFree() returns (ok: bool, ptr: nat)
      requires Shape()
      modifies buffers.freeBuffers`front
      ensures Shape()
      ensures ok == (old(State()).a.free != [])
      ensures ok ==> SlotPtr(ptr) && RowOf(ptr) == old(State()).a.free[0]
      ensures State() == if ok then old(State()).(a := old(State()).a.(free := old(State()).a.free[1..])) else old(State())
    {
      ok, ptr := buffers.GetFreeBuffer();
      assert RowsOf(old(buffers.Free())) == if ok then [RowOf(ptr)] + RowsOf(buffers.Free()) else [];
      assert pool.Slots() == old(pool.Slots());
      if ok {
        assert ptr == old(buffers.Free())[0];
        assert forall i :: 0 <= i < |buffers.Free()| ==> buffers.Free()[i] == old(buffers.Free())[i + 1];
      }
    }

    method PopInUse() returns (ok: bool, ptr: nat)
      requires Shape()
      modifies buffers.inUseBuffers`front
      ensures Shape()
      ensures ok == (old(State()).a.inUse != [])
      ensures ok ==> SlotPtr(ptr) && RowOf(ptr) == old(State()).a.inUse[0]
      ensures State() == if ok then old(State()).(a := old(State()).a.(inUse := old(State()).a.inUse[1..])) else old(State())
    {
      ok, ptr := buffers.GetInUseBuffer();
      assert RowsOf(old(buffers.InUse())) == if ok then [RowOf(ptr)] + RowsOf(buffers.InUse()) else [];
      assert pool.Slots() == old(pool.Slots());
      if ok {
        assert ptr == old(buffers.InUse())[0];
        assert forall i :: 0 <= i < |buffers.InUse()| ==> buffers.InUse()[i] == old(buffers.InUse())[i + 1];
      }
    }

    /** Line 183. */
    method NextBatch() returns (ok: bool, ptr: nat)
      requires Shape()
      modifies buffers.inUseBuffers`front, this`log
      ensures Shape()
      ensures ok == (old(State()).a.inUse != [])
      ensures ok ==> SlotPtr(ptr) && RowOf(ptr) == old(State()).a.inUse[0]
      ensures State() == A.Step(old(State()).(pc := A.Take)).(pc := A.Wait)
    {
      ok, ptr := PopInUse();
      if ok {
        SetLog(log.(taken := log.taken + [State().a.slots[RowOf(ptr)]]));
      }
    }

    method PushInUse(ptr: nat)
      requires Shape() && SlotPtr(ptr)
      modifies buffers.inUseBuffers.Repr()
      ensures Shape()
      ensures State() == old(State()).(a := old(State()).a.(inUse := Pushed(old(State()).a.inUse, RowOf(ptr), SLOTS)))
    {
      var ok := buffers.SetInUseBuffer(ptr);
      assert ok ==> RowsOf(buffers.InUse()) == RowsOf(old(buffers.InUse())) + [RowOf(ptr)];
      assert pool.Slots() == old(pool.Slots());
    }

    method PushFree(ptr: nat)
      requires Shape() && SlotPtr(ptr)
      modifies buffers.freeBuffers.Repr()
      ensures Shape()
      ensures State() == old(State()).(a := old(State()).a.(free := Pushed(old(State()).a.free, RowOf(ptr), SLOTS)))
    {
      var ok := buffers.SetFreeBuffer(ptr);
      assert ok ==> RowsOf(buffers.Free()) == RowsOf(old(buffers.Free())) + [RowOf(ptr)];
      assert pool.Slots() == old(pool.Slots());
    }

    /** APP_LOGIC_adc_samples_callback */
    method AdcSamplesCallback(buff: array2<int>, descr: Samples)
      requires Valid() && ReportOk(buff, descr) && buff !in Repr() && A.RawOk(RawOf(buff, descr))
      modifies Repr()
      ensures Valid()
      ensures State() == A.Callback(old(State()), RawOf(buff, descr))
      ensures AT.Stored(old(State()), State(), RawOf(buff, descr))
    {
      ghost var was := State();
      AT.CallbackStores(was, RawOf(buff, descr));
      CallbackBody(buff, descr);
      AT.CallbackKeepsInv(was, old(RawOf(buff, descr)));
    }

    method CallbackBody(buff: array2<int>, descr: Samples)
      requires Shape() && ReportOk(buff, descr) && buff !in Repr()
      modifies Repr()
      ensures Shape()
      ensures State() == A.Callback(old(State()), RawOf(buff, descr))
    {
      ghost var raw := RawOf(buff, descr);
      var ok, ptr := PopFree();
      if ok {
        FillSlot(RowOf(ptr), buff, descr);
        assert RawOf(buff, descr) == raw;
        Announce(ptr, A.Deinterleave(raw));
      }
    }

    ghost method SetLog(newLog: A.Log)
      requires Shape()
      modifies this`log
      ensures Shape() && State() == old(State()).(log := newLog)
    {
      log := newLog;
      assert pool.Slots() == old(pool.Slots());
    }

    /** Lines 134-137. */
    method Announce(ptr: nat, ghost batch: A.Batch)
      requires Shape() && SlotPtr(ptr)
      modifies buffers.inUseBuffers.Repr(), this`gotAdc, this`log
      ensures Shape()
      ensures State() == A.Machine(old(State()).a.(inUse := Pushed(old(State()).a.inUse, RowOf(ptr), SLOTS), got := true),
                                   A.Log(old(log).accepted + [batch], old(log).taken), A.Wait)
    {
      PushInUse(ptr);
      SetFlag(true, log.(accepted := log.accepted + [batch]));
    }

    /** got_adc is assigned. */
    method SetFlag(value: bool, ghost newLog: A.Log)
      requires Shape()
      modifies this`gotAdc, this`log
      ensures Shape()
      ensures State() == A.Machine(old(State()).a.(got := value), newLog, A.Wait)
    {
      gotAdc := value;
      log := newLog;
      assert pool.Slots() == old(pool.Slots());
    }

    method FillSlot(row: nat, buff: array2<int>, descr: Samples)
      requires Shape() && ReportOk(buff, descr) && buff !in Repr() && row < SLOTS
      modifies pool.sigin, pool.temp, pool.samplesNbr
      ensures Shape()
      ensures State() == old(State()).(a := old(State()).a.(slots := old(State()).a.slots[row := A.Deinterleave(RawOf(buff, descr))]))
    {
      pool.CopySamples(row, buff, descr);
    }

    /** handle_adc_samples up to the release of the slot (lines 180-205). */
    method TakeAverage() returns (avg: Option<int>)
      requires Valid()
      modifies Repr()
      ensures Valid()
      ensures (State(), avg) == A.Consume(old(State()))
      ensures AT.Served(old(State()), State(), avg)
    {
      ghost var was := State();
      NextIsSampled(was);
      AT.ConsumeServes(was);
      avg := TakeBody();
      AT.ConsumeKeepsInv(was);
    }

    method TakeBody() returns (avg: Option<int>)
      requires Shape() && HeadSampled(State())
      modifies Repr()
      ensures Shape()
      ensures (State(), avg) == A.Consume(old(State()))
    {
      if !gotAdc {
        return None;
      }
      SetFlag(false, log);
      var ok, ptr := NextBatch();
      if !ok {
        return None;
      }
      Serve(ptr);
      avg := Some(siginAvg);
    }

    /** Lines 184-205. */
    method Serve(ptr: nat)
      requires Shape() && SlotPtr(ptr) && State().a.slots[RowOf(ptr)].sigin != []
      modifies buffers.freeBuffers.Repr(), this`siginAvg, this`tempAvg
      ensures Shape()
      ensures siginAvg == A.AverageOf(old(State()).a.slots[RowOf(ptr)])
      ensures State() == old(State()).(a := old(State()).a.(free := Pushed(old(State()).a.free, RowOf(ptr), SLOTS)))
    {
      SumUp(RowOf(ptr));
      PushFree(ptr);
    }

    /** Lines 184-198. */
    method SumUp(row: nat)
      requires Shape() && row < SLOTS && State().a.slots[row].sigin != []
      modifies this`siginAvg, this`tempAvg
      ensures Shape() && State() == old(State())
      ensures siginAvg == A.AverageOf(State().a.slots[row])
    {
      siginAvg, tempAvg := pool.Averages(row);
      assert pool.Slots() == old(pool.Slots());
    }
  }

  predicate HeadSampled(m: A.Machine) {
    m.a.inUse != [] ==> A.SlotOf(m.a, m.a.inUse[0]).sigin != []
  }

  lemma InitRows()
    ensures RowsOf(Offsets(SLOTS, ITEM_SIZE, 1)) == Iota(SLOTS)
    ensures SlotPtrs(Offsets(SLOTS, ITEM_SIZE, 1))
  {
  }

  lemma NextIsSampled(m: A.Machine)
    requires A.Linked(m) && A.AcceptedOk(m.log)
    ensures HeadSampled(m)
  {
    if m.a.inUse != [] {
      var n := |m.log.taken|;
      assert m.log.accepted[n] == A.Contents(m.a.slots, m.a.inUse)[0];
    }
  }
}
