/** The configuration of the DAC at start-up (dac.c, blocking part), against a model of the
    device: its non-volatile memory takes a while to program, transfers may be refused, and
    the 32-bit tick may wrap at any moment. */
module DacConfig {
  import opened Common
  import opened Mcp47x6
  import Conversion

  const TICK_MOD: nat := 0x1_0000_0000
  const TIMEOUT: nat := 100
  const DELAY_MS: nat := 5
  const MAX_POLLS: nat := 21

  /** dac_nv_init_value_mv */
  const INIT_VALUE_MV: nat := 500

  /** SYS_TIME_get_tick() - start, in 32 bits. */
  function Elapsed(start: nat, now: nat): nat {
    (now - start) % TICK_MOD
  }

  /** Time adds up across a wrap of the tick, up to a full turn. */
  lemma ElapsedAdds(start: nat, now: nat, d: nat)
    ensures Elapsed(start, (now + d) % TICK_MOD) == (Elapsed(start, now) + d) % TICK_MOD
  {
    var q := (now - start) / TICK_MOD;
    var r := (now + d) / TICK_MOD;
    var t := (Elapsed(start, now) + d) / TICK_MOD;
    var rest := (Elapsed(start, now) + d) % TICK_MOD;
    assert (now + d) % TICK_MOD - start == (q - r + t) * TICK_MOD + rest;
    Remainder(q - r + t, rest);
  }

  lemma Remainder(q: int, r: nat)
    requires r < TICK_MOD
    ensures (q * TICK_MOD + r) % TICK_MOD == r
  {
  }

  // ---------------------------------------------------------------- the length of the poll

  /** The time passed after one more delay. */
  function Later(advance: nat -> nat, d: nat, elapsed: nat): nat {
    (elapsed + advance(d)) % TICK_MOD
  }

  /** The reads of a poll of a device that is busy for `busy` more reads: delay number d is
      next, and `elapsed` ticks have passed. */
  function Polls(advance: nat -> nat, d: nat, elapsed: nat, busy: nat): (n: nat)
    ensures 1 <= n <= busy + 1
    decreases busy
  {
    if busy == 0 then 1
    else
      var e := Later(advance, d, elapsed);
      if e > TIMEOUT then 1 else 1 + Polls(advance, d + 1, e, busy - 1)
  }

  lemma NextPoll(advance: nat -> nat, d: nat, elapsed: nat, busy: nat)
    ensures var e := Later(advance, d, elapsed);
            Polls(advance, d, elapsed, busy)
            == if busy == 0 || e > TIMEOUT then 1 else 1 + Polls(advance, d + 1, e, busy - 1)
  {
  }

  /** Every wait of 5 ms moves the tick by at least 5, and not by nearly a full turn. */
  ghost predicate Ticks(advance: nat -> nat) {
    forall k :: DELAY_MS <= advance(k) < TICK_MOD - TIMEOUT
  }

  /** The reads there is time for, from the delays alone. */
  ghost function Budget(advance: nat -> nat, d: nat, elapsed: nat): (n: nat)
    requires Ticks(advance) && elapsed <= TIMEOUT
    ensures n >= 1 && DELAY_MS * (n - 1) + elapsed <= TIMEOUT
    decreases TIMEOUT - elapsed
  {
    if elapsed + advance(d) > TIMEOUT then 1 else 1 + Budget(advance, d + 1, elapsed + advance(d))
  }

  /** With a tick that moves, the poll lasts until the device is ready or the time is up. */
  lemma {:induction false} PollsWithinBudget(advance: nat -> nat, d: nat, elapsed: nat, busy: nat)
    requires Ticks(advance) && elapsed <= TIMEOUT
    ensures Polls(advance, d, elapsed, busy) == Min(busy + 1, Budget(advance, d, elapsed))
    decreases busy
  {
    if busy > 0 {
      assert (elapsed + advance(d)) % TICK_MOD == elapsed + advance(d);
      if elapsed + advance(d) <= TIMEOUT {
        PollsWithinBudget(advance, d + 1, elapsed + advance(d), busy - 1);
      }
    }
  }

  /** With waits of exactly 5 ticks there is time for 21 reads. */
  lemma {:induction false} SteadyBudget(advance: nat -> nat, d: nat, elapsed: nat)
    requires forall k :: advance(k) == DELAY_MS
    requires elapsed <= TIMEOUT
    ensures Ticks(advance) && Budget(advance, d, elapsed) == (TIMEOUT - elapsed) / DELAY_MS + 1
    decreases TIMEOUT - elapsed
  {
    if elapsed + DELAY_MS <= TIMEOUT {
      SteadyBudget(advance, d + 1, elapsed + DELAY_MS);
    }
  }

  /** The settings bits a write-all frame stores. */
  function StoredBits(head: byte): byte {
    head & 0x1F
  }

  /** The fourth byte of a read: the ready bit over the settings. */
  function NvByte(ready: bool, cfg: byte): byte {
    (if ready then 0x80 else 0) | (cfg & 0x7F)
  }

  lemma NvByteDecodes(ready: bool, cfg: byte)
    ensures NvByte(ready, cfg) >> 7 == if ready then 1 else 0
    ensures SettingsOf(NvByte(ready, cfg)) == SettingsOf(cfg)
  {
  }

  /** The settings and the start-up value arrive at the device as intended. */
  lemma FrameStored(third: byte)
    ensures var f := MemFrame(CMD_ALL_MEM, DAC_SETTINGS, Conversion.Word(INIT_VALUE_MV), third);
            && f[0] >> 5 == CMD_ALL_MEM
            && SettingsOf(StoredBits(f[0])) == DAC_SETTINGS
            && MemValue(Dac12, f) == 409 && f == [0x71, 0x19, 0x90]
  {
    MemDataRoundTrip(CMD_ALL_MEM, DAC_SETTINGS, Conversion.Word(INIT_VALUE_MV), third);
  }

  /** An MCP4726 on the bus and the system tick. Reads find it programming `programming`
      times after a write; until then it shows its old settings if `hides`, else the new. */
  class Device {
    const hides: bool
    const programming: nat
    const answers: nat -> bool
    const advance: nat -> nat
    const volatile: nat -> (byte, byte, byte)
    var stored: byte
    var before: byte
    var data: bv16
    var busy: nat
    var tick: nat
    var transfers: nat
    var delays: nat
    var readCount: nat
    var writeCount: nat
    ghost var lastNv: byte

    ghost predicate AllAnswered()
    {
      forall k :: answers(k)
    }

    constructor (hides: bool, programming: nat, answers: nat -> bool, advance: nat -> nat,
                 volatile: nat -> (byte, byte, byte), stored: byte)
      ensures this.hides == hides && this.programming == programming
      ensures this.answers == answers && this.advance == advance
      ensures this.stored == stored && busy == 0 && delays == 0
    {
      this.hides, this.programming := hides, programming;
      this.answers, this.advance, this.volatile := answers, advance, volatile;
      this.stored, before, data, busy := stored, stored, 0, 0;
      tick, transfers, delays, readCount, writeCount := 0, 0, 0, 0, 0;
    }

    ghost predicate Ticking()
    {
      Ticks(advance)
    }

    /** Every wait moves it by exactly 5. */
    ghost predicate Steady()
    {
      forall k :: advance(k) == DELAY_MS
    }

    /** The settings a read shows now. */
    function Shown(): byte
      reads this
    {
      if busy > 0 && hides then before else stored
    }

    /** The settings the read after the next one would show, without a write. */
    function ShownNext(): byte
      reads this
    {
      if busy > 1 && hides then before else stored
    }

    /** nrf_drv_twi_tx, blocking */
    method Tx(frame: seq<byte>) returns (ok: bool)
      requires |frame| == 3
      modifies this`transfers, this`before, this`stored, this`data, this`busy, this`writeCount
      ensures ok == answers(old(transfers)) && transfers == old(transfers) + 1
      ensures ok && frame[0] >> 5 == CMD_ALL_MEM
              ==> before == old(Shown()) && stored == StoredBits(frame[0]) && data == MemValue(Dac12, frame)
                  && busy == programming && writeCount == old(writeCount) + 1
      ensures !(ok && frame[0] >> 5 == CMD_ALL_MEM)
              ==> before == old(before) && stored == old(stored) && data == old(data)
                  && busy == old(busy) && writeCount == old(writeCount)
    {
      ok := answers(transfers);
      transfers := transfers + 1;
      if ok && frame[0] >> 5 == CMD_ALL_MEM {
        before, stored, data, busy, writeCount := Shown(), StoredBits(frame[0]), MemValue(Dac12, frame), programming, writeCount + 1;
      }
    }

    /** nrf_drv_twi_rx, blocking */
    method Rx() returns (ok: bool, raw: seq<byte>)
      modifies this`transfers, this`busy, this`readCount, this`lastNv
      ensures ok == answers(old(transfers)) && transfers == old(transfers) + 1 && |raw| == READ_LEN
      ensures ok ==> raw[3] == NvByte(old(busy) == 0, old(Shown()))
      ensures busy == (if ok && old(busy) > 0 then old(busy) - 1 else old(busy))
      ensures readCount == old(readCount) + if ok then 1 else 0
      ensures lastNv == if ok then old(Shown()) else old(lastNv)
    {
      ok, raw := answers(transfers), [0, 0, 0, 0, 0, 0];
      transfers := transfers + 1;
      if ok {
        var (cfg, hi, lo) := volatile(readCount);
        raw := [cfg, hi, lo, NvByte(busy == 0, Shown()), Low(data >> 4), Low(data << 4)];
        lastNv := Shown();
        busy, readCount := if busy > 0 then busy - 1 else 0, readCount + 1;
      }
    }

    /** nrf_delay_ms(5) */
    method Delay()
      modifies this`tick, this`delays
      ensures tick == (old(tick) + advance(old(delays))) % TICK_MOD && delays == old(delays) + 1
    {
      tick, delays := (tick + advance(delays)) % TICK_MOD, delays + 1;
    }
  }

  // ---------------------------------------------------------------- dac.c

  /** DAC_read_blocking */
  method ReadBlocking(dev: Device, into: ReadData) returns (ok: bool)
    modifies into, dev`transfers, dev`busy, dev`readCount, dev`lastNv
    ensures ok == dev.answers(old(dev.transfers)) && dev.transfers == old(dev.transfers) + 1
    ensures ok ==> into.nvSett == SettingsOf(old(dev.Shown())) && (into.nvRdy != 0 <==> old(dev.busy) == 0)
    ensures dev.busy == (if ok && old(dev.busy) > 0 then old(dev.busy) - 1 else old(dev.busy))
    ensures dev.readCount == old(dev.readCount) + if ok then 1 else 0
    ensures dev.lastNv == if ok then old(dev.Shown()) else old(dev.lastNv)
  {
    var raw;
    ok, raw := dev.Rx();
    if ok {
      NvByteDecodes(old(dev.busy) == 0, old(dev.Shown()));
      into.Decode(Dac12, raw);
    }
  }

  predicate Good(cfg: byte) {
    SettingsOf(cfg) == DAC_SETTINGS
  }

  /** compare_dac_config */
  method CompareDacConfig(sett: Settings) returns (test: bool)
    ensures test <==> sett.(device := Dac12) == DAC_SETTINGS
  {
    test := true;
    test := test && DAC_SETTINGS.vref == sett.vref;
    test := test && DAC_SETTINGS.gain == sett.gain;
    test := test && DAC_SETTINGS.pwrDown == sett.pwrDown;
  }

  /** write_nv_dac_config. An answered write leaves the settings in the device, and it reports
      success exactly when the poll found the device ready. */
  method WriteNvDacConfig(dev: Device) returns (ret: bool)
    modifies dev
    ensures dev.answers(old(dev.transfers)) ==> dev.writeCount == old(dev.writeCount) + 1
    ensures dev.answers(old(dev.transfers)) ==> Good(dev.stored) && dev.data == 409 && dev.before == old(dev.Shown())
    ensures !dev.answers(old(dev.transfers)) ==> !ret && dev.readCount == old(dev.readCount) && dev.writeCount == old(dev.writeCount)
    ensures dev.readCount >= old(dev.readCount)
    ensures dev.AllAnswered() ==>
              var polls := Polls(dev.advance, old(dev.delays), 0, dev.programming);
              && dev.readCount == old(dev.readCount) + polls
              && dev.busy == (if polls <= dev.programming then dev.programming - polls else 0)
              && (ret <==> polls == dev.programming + 1)
    ensures dev.Ticking() ==> dev.readCount <= old(dev.readCount) + MAX_POLLS
  {
    ret := false;
    var txData := new byte[3](_ => 0);
    PrepareWriteMem(CMD_ALL_MEM, DAC_SETTINGS, Conversion.Word(INIT_VALUE_MV), txData);
    FrameStored(0);
    var ok := dev.Tx(txData[..]);
    if ok {
      WithinBudget(dev);
      ret := Poll(dev);
    }
  }

  /** Lines 273-288. */
  method Poll(dev: Device) returns (ret: bool)
    modifies dev`tick, dev`delays, dev`transfers, dev`busy, dev`readCount, dev`lastNv
    ensures dev.readCount >= old(dev.readCount)
    ensures dev.AllAnswered() ==>
              var polls := Polls(dev.advance, old(dev.delays), 0, old(dev.busy));
              && dev.readCount == old(dev.readCount) + polls
              && dev.busy == (if polls <= old(dev.busy) then old(dev.busy) - polls else 0)
              && (ret <==> polls == old(dev.busy) + 1)
    ensures dev.readCount <= old(dev.readCount) + Polls(dev.advance, old(dev.delays), 0, old(dev.busy))
  {
    ret := false;
    var readData := new ReadData();
    var stp := dev.tick;
    ghost var made, left, elapsed, busy0 := 0, Polls(dev.advance, dev.delays, 0, dev.busy), 0, dev.busy;
    while true
      invariant dev.readCount == old(dev.readCount) + made && dev.busy + made == busy0
      invariant elapsed == Elapsed(stp, dev.tick)
      invariant left == Polls(dev.advance, dev.delays, elapsed, dev.busy)
      invariant Polls(dev.advance, old(dev.delays), 0, busy0) == made + left
      decreases dev.busy
    {
      var ok;
      ok, elapsed := DelayAndRead(dev, readData, stp, elapsed);
      if !ok {
        break;
      }
      made, left := made + 1, left - 1;
      if readData.nvRdy != 0 {
        ret := true;
        break;
      }
      if Elapsed(stp, dev.tick) > TIMEOUT {
        break;
      }
    }
  }

  /** Lines 277-278. */
  method DelayAndRead(dev: Device, into: ReadData, ghost stp: nat, ghost elapsed: nat)
    returns (ok: bool, ghost later: nat)
    requires elapsed == Elapsed(stp, dev.tick)
    modifies into, dev`tick, dev`delays, dev`transfers, dev`busy, dev`readCount, dev`lastNv
    ensures later == Elapsed(stp, dev.tick)
    ensures ok == dev.answers(old(dev.transfers))
    ensures ok ==> (into.nvRdy != 0 <==> old(dev.busy) == 0)
    ensures dev.busy == (if ok && old(dev.busy) > 0 then old(dev.busy) - 1 else old(dev.busy))
    ensures dev.readCount == old(dev.readCount) + if ok then 1 else 0
    ensures ok && (old(dev.busy) == 0 || later > TIMEOUT) ==> Polls(dev.advance, old(dev.delays), elapsed, old(dev.busy)) == 1
    ensures ok && old(dev.busy) > 0 && later <= TIMEOUT ==>
              Polls(dev.advance, old(dev.delays), elapsed, old(dev.busy)) == 1 + Polls(dev.advance, dev.delays, later, dev.busy)
  {
    ElapsedAdds(stp, dev.tick, dev.advance(dev.delays));
    NextPoll(dev.advance, dev.delays, elapsed, dev.busy);
    later := Later(dev.advance, dev.delays, elapsed);
    dev.Delay();
    ok := ReadBlocking(dev, into);
  }

  /** verify_dac_config. A positive answer means that the settings read last are right. When
      all transfers are answered: settings that are right at once are not written; otherwise
      the memory is written, and the answer is positive exactly when the device shows new
      settings at once, or is programmed within the first poll, or was hiding the right
      settings already. If not, the second round writes again and gives up all the same. */
  method VerifyDacConfig(dev: Device) returns (ret: bool)
    modifies dev
    ensures ret ==> Good(dev.lastNv)
    ensures dev.AllAnswered() && Good(old(dev.Shown())) ==> ret && dev.writeCount == old(dev.writeCount)
    ensures dev.AllAnswered() && !Good(old(dev.Shown()))
            ==> dev.writeCount == old(dev.writeCount) + (if ret then 1 else 2) && Good(dev.stored) && dev.data == 409
    ensures dev.AllAnswered() && !Good(old(dev.Shown()))
            ==> (ret <==> || !dev.hides || Good(old(dev.ShownNext()))
                          || dev.programming <= Polls(dev.advance, old(dev.delays), 0, dev.programming))
    ensures dev.AllAnswered() && !Good(old(dev.Shown())) && old(dev.busy) == 0 && dev.Ticking()
            ==> (ret <==> !dev.hides || dev.programming <= Budget(dev.advance, old(dev.delays), 0))
    ensures dev.AllAnswered() && !Good(old(dev.Shown())) && old(dev.busy) == 0 && dev.Steady()
            ==> (ret <==> !dev.hides || dev.programming <= MAX_POLLS)
    ensures dev.Ticking() ==> dev.readCount <= old(dev.readCount) + 2 * (MAX_POLLS + 1)
  {
    WithinBudget(dev);
    ret := VerifyRounds(dev);
  }

  /** Lines 240-256. */
  method VerifyRounds(dev: Device) returns (ret: bool)
    modifies dev
    ensures ret ==> Good(dev.lastNv)
    ensures dev.AllAnswered() && Good(old(dev.Shown())) ==> ret && dev.writeCount == old(dev.writeCount)
    ensures dev.AllAnswered() && !Good(old(dev.Shown()))
            ==> Written(dev, old(dev.writeCount), 2, ret,
                        Polls(dev.advance, old(dev.delays), 0, dev.programming), old(dev.ShownNext()))
    ensures dev.Ticking() ==> dev.readCount <= old(dev.readCount) + 2 * (MAX_POLLS + 1)
  {
    ret := false;
    var readData := new ReadData();
    var i := 0;
    ghost var shown, next, polls := dev.Shown(), dev.ShownNext(), Polls(dev.advance, dev.delays, 0, dev.programming);
    ghost var readsWere, writesWere := dev.readCount, dev.writeCount;
    while i < 2 && !ret
      invariant i <= 2
      invariant ret ==> Good(dev.lastNv)
      invariant i == 0 ==> !ret && dev.Shown() == shown && dev.ShownNext() == next && dev.writeCount == writesWere
                           && polls == Polls(dev.advance, dev.delays, 0, dev.programming)
      invariant dev.AllAnswered() && i > 0 && Good(shown) ==> ret && dev.writeCount == writesWere
      invariant dev.AllAnswered() && i > 0 && !Good(shown) ==> Written(dev, writesWere, i, ret, polls, next)
      invariant dev.Ticking() ==> dev.readCount <= readsWere + i * (MAX_POLLS + 1)
    {
      ret := Round(dev, readData);
      i := i + 1;
    }
  }

  /** Lines 244-253. */
  method Round(dev: Device, readData: ReadData) returns (ret: bool)
    modifies dev, readData
    ensures ret ==> Good(dev.lastNv)
    ensures dev.AllAnswered() ==> (ret <==> Good(old(dev.Shown())))
    ensures ret ==> dev.writeCount == old(dev.writeCount) && dev.stored == old(dev.stored) && dev.data == old(dev.data)
    ensures dev.AllAnswered() && !ret ==> dev.writeCount == old(dev.writeCount) + 1 && Good(dev.stored) && dev.data == 409
    ensures dev.AllAnswered() && !ret ==>
              var polls := Polls(dev.advance, old(dev.delays), 0, dev.programming);
              && dev.before == old(dev.ShownNext())
              && dev.busy == if polls <= dev.programming then dev.programming - polls else 0
    ensures dev.Ticking() ==> dev.readCount <= old(dev.readCount) + MAX_POLLS + 1
  {
    ret := false;
    var ok := ReadBlocking(dev, readData);
    if ok {
      var same := CompareDacConfig(readData.nvSett);
      if !same {
        var written := WriteNvDacConfig(dev);
      } else {
        ret := true;
      }
    }
  }

  /** The device after i rounds that found it to show other settings first. */
  ghost predicate Written(dev: Device, writesWere: nat, i: nat, ret: bool, polls: nat, hidden: byte)
    reads dev
  {
    && Good(dev.stored) && dev.data == 409
    && dev.writeCount == writesWere + (if i == 1 || ret then 1 else 2)
    && (i == 1 ==> !ret && dev.before == hidden && dev.busy == if polls <= dev.programming then dev.programming - polls else 0)
    && (i == 2 ==> (ret <==> !dev.hides || Good(hidden) || dev.programming <= polls))
  }

  /** How long a poll is, and whether it is long enough, from the delays alone. */
  lemma WithinBudget(dev: Device)
    ensures dev.Ticking() ==> Polls(dev.advance, dev.delays, 0, dev.programming) <= MAX_POLLS
    ensures dev.Ticking() ==>
              var polls := Polls(dev.advance, dev.delays, 0, dev.programming);
              dev.programming <= polls <==> dev.programming <= Budget(dev.advance, dev.delays, 0)
    ensures dev.Steady() ==> dev.Ticking() && Budget(dev.advance, dev.delays, 0) == MAX_POLLS
  {
    if dev.Steady() {
      SteadyBudget(dev.advance, dev.delays, 0);
    }
    if dev.Ticking() {
      PollsWithinBudget(dev.advance, dev.delays, 0, dev.programming);
    }
  }

  /** A device for which it fails: all transfers are answered and every wait is 5 ticks, but
      the new settings show only after 22 reads, one more than the poll makes. */
  method SlowDeviceFails() returns (ret: bool)
    ensures !ret
  {
    var dev := new Device(true, 22, _ => true, _ => DELAY_MS, _ => (0, 0, 0), 0);
    assert !Good(dev.Shown());
    ret := VerifyDacConfig(dev);
  }
}
