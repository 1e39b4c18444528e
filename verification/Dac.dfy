/** dac.c as it is: the value queue, the flag and the two static frame arrays, updated in
    place, with the driver's outstanding transfer as ghost state. */
module Dac {
  import opened Common
  import opened NrfQueue
  import Mcp = Mcp47x6
  import Conversion
  import Spec = DacSpec
  import Theorems = DacTheorems

  datatype TwiEvt = Done | AddressNack | DataNack

  class Dac {
    const values: Queue<bv16>
    const updateTx: array<byte>
    const handlerTx: array<byte>
    var xferDone: bool
    var xferErr: TwiEvt
    ghost var updateWord: bv16
    ghost var handlerWord: bv16
    ghost var bus: Option<Spec.Source>
    ghost var log: Spec.Log

    ghost function Repr(): set<object> {
      {this, updateTx, handlerTx} + values.Repr()
    }

    /** Each array holds the frame of its word. */
    ghost predicate Shape()
      reads this, Repr()
    {
      && values.Valid() && values.size == Spec.QUEUE_LEN
      && updateTx != handlerTx
      && this !in values.Repr() && updateTx as object !in values.Repr() && handlerTx as object !in values.Repr()
      && Holds(updateTx, updateWord) && Holds(handlerTx, handlerWord)
    }

    ghost function State(pc: Spec.Pc): Spec.Machine
      requires Shape()
      reads this, Repr()
    {
      Spec.Machine(Spec.Dac(values.Contents(), xferDone, updateWord, handlerWord, bus), log, pc)
    }

    ghost predicate Valid()
      reads this, Repr()
    {
      Shape() && Spec.Inv(State(Spec.Out(true)))
    }

    /** Writes elsewhere leave the module alone. */
    twostate lemma Untouched()
      requires old(Valid()) && unchanged(Repr())
      ensures Valid() && State(Spec.Out(true)) == old(State(Spec.Out(true)))
    {
    }

    constructor ()
      ensures Valid() && fresh(Repr())
      ensures State(Spec.Out(true)) == Spec.Init()
    {
      values := new Queue<bv16>(Spec.QUEUE_LEN);
      updateTx := new byte[2](_ => 0);
      handlerTx := new byte[2](_ => 0);
      xferDone, xferErr, updateWord, handlerWord, bus := true, Done, 0, 0, None;
      log := Spec.Log([], [], [], []);
      new;
      ZeroFrame();
      Theorems.InitInv();
    }

    /** DAC_update_dac, run to its end without the completion interrupt; txOk is the answer
        of nrf_drv_twi_tx. */
    method UpdateDac(voltageMv: nat, txOk: bool) returns (ret: bool)
      requires Valid() && voltageMv < 0x1_0000
      modifies Repr()
      ensures Valid()
      ensures State(Spec.Out(ret)) == Spec.Update(old(State(Spec.Out(true))), Conversion.Word(voltageMv), txOk)
      ensures var q, fits := old(values.Contents()) + [Conversion.Word(voltageMv)], |old(values.Contents())| < 50;
              && (ret <==> fits && (!old(xferDone) || txOk))
              && values.Contents() == (if !fits then old(values.Contents()) else if old(xferDone) then q[1..] else q)
              && xferDone == (old(xferDone) && !(fits && txOk))
              && (fits && old(xferDone) ==> Holds(updateTx, q[0]))
    {
      ghost var was := State(Spec.Out(true));
      ret := UpdateBody(voltageMv, txOk);
      Theorems.UpdateKeepsInv(was, Conversion.Word(voltageMv), txOk);
    }

    method UpdateBody(voltageMv: nat, txOk: bool) returns (ret: bool)
      requires Shape() && voltageMv < 0x1_0000
      modifies Repr()
      ensures Shape()
      ensures State(Spec.Out(ret)) == Spec.Update(old(State(Spec.Out(true))), Conversion.Word(voltageMv), txOk)
    {
      var raw := Conversion.Word(voltageMv);
      var pushed := PushValue(raw);
      if !pushed {
        return false;
      }
      if xferDone {
        var status;
        status, raw := values.Pop(raw, false);
        // Unpreempted, the value just pushed is there; DacSpec.Step has the reset branch.
        assert status.Success?;
        StartUpdate(raw, txOk);
        ret := txOk;
      } else {
        ret := true;
      }
    }

    /** Line 136. */
    method PushValue(raw: bv16) returns (ok: bool)
      requires Shape()
      modifies values.Repr(), this`log
      ensures Shape()
      ensures ok == (|old(values.Contents())| < Spec.QUEUE_LEN)
      ensures values.Contents() == old(values.Contents()) + if ok then [raw] else []
      ensures log == old(log).(pushes := old(log).pushes + [Spec.Try(raw, ok)])
    {
      var status := values.Push(raw);
      ok := status.Success?;
      log := log.(pushes := log.pushes + [Spec.Try(raw, ok)]);
    }

    /** Lines 146-150. */
    method StartUpdate(raw: bv16, txOk: bool)
      requires Shape()
      modifies updateTx, this`updateWord, this`bus, this`log, this`xferDone
      ensures Shape()
      ensures updateWord == raw && handlerWord == old(handlerWord)
      ensures log == old(log).(starts := old(log).starts + [Spec.Try(raw, txOk)])
      ensures values.Contents() == old(values.Contents())
      ensures if txOk then bus == Some(Spec.MainArray) && !xferDone else bus == old(bus) && xferDone == old(xferDone)
    {
      Mcp.PrepareWriteVolatileDac(Mcp.DAC_SETTINGS, raw, updateTx);
      updateWord := raw;
      log := log.(starts := log.starts + [Spec.Try(raw, txOk)]);
      if txOk {
        bus := Some(Spec.MainArray);
        xferDone := false;
      }
    }

    /** twi_evt_handler, called by the driver when the outstanding transfer has ended. */
    method TwiEvtHandler(evt: TwiEvt, txOk: bool)
      requires Valid() && bus.Some?
      modifies Repr()
      ensures Valid()
      ensures State(Spec.Out(true)) == Spec.Complete(old(State(Spec.Out(true))), evt.Done?, txOk)
      ensures xferErr == if xferDone then evt else old(xferErr)
      ensures old(values.Contents()) == [] ==> values.Contents() == [] && xferDone && bus.None?
      ensures old(values.Contents()) != [] ==>
                && values.Contents() == old(values.Contents())[1..]
                && Holds(handlerTx, old(values.Contents())[0])
                && xferDone == !txOk && bus == if txOk then Some(Spec.IrqArray) else None
      ensures |log.wire| == |old(log.wire)| + 1 && log.wire[|old(log.wire)|].ok == evt.Done?
    {
      ghost var was := State(Spec.Out(true));
      HandlerBody(evt, txOk);
      Theorems.IrqKeepsInv(was, evt.Done?, txOk);
    }

    method HandlerBody(evt: TwiEvt, txOk: bool)
      requires Shape() && bus.Some?
      modifies Repr()
      ensures Shape()
      ensures State(Spec.Out(true)) == Spec.Complete(old(State(Spec.Out(true))), evt.Done?, txOk)
      ensures xferErr == if xferDone then evt else old(xferErr)
    {
      ghost var n := Spec.Complete(State(Spec.Out(true)), evt.Done?, txOk);
      EndTransfer(evt);
      if !values.IsEmpty() {
        ContinueChain(evt, txOk);
        assert State(Spec.Out(true)).log == n.log;
      } else {
        xferErr, xferDone := evt, true;
      }
      assert State(Spec.Out(true)).d == n.d;
    }

    /** The driver's transfer is over when it calls the handler. */
    ghost method EndTransfer(evt: TwiEvt)
      requires Shape() && bus.Some?
      modifies this`bus, this`log
      ensures Shape() && bus.None? && values.Contents() == old(values.Contents())
      ensures log == var word := Spec.Content(old(State(Spec.Out(true))).d, old(bus).value);
                     old(log).(wire := old(log).wire + [Spec.Try(word, evt.Done?)],
                               received := old(log).received + if evt.Done? then [word] else [])
    {
      var word := Spec.Content(State(Spec.Out(true)).d, bus.value);
      log := log.(wire := log.wire + [Spec.Try(word, evt.Done?)],
                  received := log.received + if evt.Done? then [word] else []);
      bus := None;
    }

    /** Lines 195-206. */
    method ContinueChain(evt: TwiEvt, txOk: bool)
      requires Shape() && bus.None? && values.Contents() != []
      modifies values`front, handlerTx, this`handlerWord, this`bus, this`log, this`xferDone, this`xferErr
      ensures Shape()
      ensures values.Contents() == old(values.Contents())[1..]
      ensures handlerWord == old(values.Contents())[0] && updateWord == old(updateWord)
      ensures log == old(log).(starts := old(log).starts + [Spec.Try(handlerWord, txOk)])
      ensures bus == (if txOk then Some(Spec.IrqArray) else None) && xferDone == !txOk
      ensures xferErr == if xferDone then evt else old(xferErr)
    {
      var status, raw := values.Pop(0, false);
      StartNext(raw, txOk);
      if !txOk {
        xferErr, xferDone := evt, true;
      } else {
        xferDone := false;
      }
    }

    /** Lines 197-200. */
    method StartNext(raw: bv16, txOk: bool)
      requires Shape()
      modifies handlerTx, this`handlerWord, this`bus, this`log
      ensures Shape()
      ensures handlerWord == raw && updateWord == old(updateWord)
      ensures log == old(log).(starts := old(log).starts + [Spec.Try(raw, txOk)])
      ensures values.Contents() == old(values.Contents())
      ensures bus == if txOk then Some(Spec.IrqArray) else old(bus)
    {
      Mcp.PrepareWriteVolatileDac(Mcp.DAC_SETTINGS, raw, handlerTx);
      handlerWord := raw;
      log := log.(starts := log.starts + [Spec.Try(raw, txOk)]);
      if txOk {
        bus := Some(Spec.IrqArray);
      }
    }

    /** The array behind the outstanding transfer. */
    ghost function BusArray(): array<byte>
      requires bus.Some?
      reads this
    {
      if bus.value.MainArray? then updateTx else handlerTx
    }

    /** The bytes the driver is sending decode to the word in flight. */
    lemma BytesOnTheBus()
      requires Valid() && bus.Some?
      ensures BusArray().Length == 2
      ensures Spec.InFlight(State(Spec.Out(true)).d) == [if bus.value.MainArray? then updateWord else handlerWord]
      ensures Mcp.DacValue(Mcp.Dac12, BusArray()[..]) == Spec.InFlight(State(Spec.Out(true)).d)[0] & 0x0FFF
    {
      HeldValue(updateTx, updateWord);
      HeldValue(handlerTx, handlerWord);
    }
  }

  lemma HeldValue(a: array<byte>, word: bv16)
    requires Holds(a, word)
    ensures a.Length == 2 && Mcp.DacValue(Mcp.Dac12, a[..]) == word & 0x0FFF
  {
    Mcp.VolatileDacRoundTrip(Mcp.DAC_SETTINGS, word);
  }

  /** The array holds the frame of the word. */
  ghost predicate Holds(a: array<byte>, word: bv16)
    reads a
  {
    a.Length == 2 && a[..] == Mcp.VolatileDacFrame(Mcp.DAC_SETTINGS, word)
  }

  lemma ZeroFrame()
    ensures Mcp.VolatileDacFrame(Mcp.DAC_SETTINGS, 0) == [0, 0]
  {
  }
}
