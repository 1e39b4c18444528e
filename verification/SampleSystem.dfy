/** The ADC module, the application logic and the DAC module together, as objects updated in
    place; their joint state is a state of the Pipeline machine. */
module SampleSystem {
  import opened Common
  import opened AdcModule
  import opened AppLogic
  import Conversion
  import A = AdcSpec
  import AT = AdcTheorems
  import D = DacSpec
  import P = Pipeline
  import DacModule = Dac

  class System {
    const app: App
    const dac: DacModule.Dac
    const adc: Adc

    ghost function Repr(): set<object> {
      app.Repr() + dac.Repr() + {adc}
    }

    ghost predicate Apart()
    {
      && app.Repr() !! dac.Repr()
      && adc !in app.Repr() + dac.Repr()
      && adc.pool !in app.Repr() + dac.Repr()
      && app.buffers !in dac.Repr() && app.buffers !in app.Repr()
      && this !in Repr()
    }

    ghost predicate Shape()
      reads this, app.buffers, Repr()
    {
      Apart() && app.Valid() && dac.Valid() && adc.Valid() && (adc.conv.Converting? ==> !adc.stopSampling)
    }

    ghost function State(): P.Machine
      requires Shape()
      reads this, app.buffers, Repr()
    {
      P.Machine(app.State(), dac.State(D.Out(true)), adc.stopSampling)
    }

    ghost predicate Valid()
      reads this, app.buffers, Repr()
    {
      Shape() && P.Inv(State())
    }

    /** The samples of the conversion under way. */
    ghost function Samples(): seq<int>
      requires Shape() && adc.conv.Converting?
      reads this, adc, adc.pool, app.buffers, Repr()
    {
      Prefix(adc.pool, adc.conv.row, adc.conv.size)
    }

    /** What a call into the DAC module leaves alone. */
    twostate lemma DacCalled()
      requires old(Shape()) && dac.Valid() && unchanged(app, app.buffers, app.pool, adc)
      requires unchanged(app.buffers.freeBuffers, app.buffers.freeBuffers.buffer)
      requires unchanged(app.buffers.inUseBuffers, app.buffers.inUseBuffers.buffer)
      requires unchanged(app.pool.sigin, app.pool.temp, app.pool.samplesNbr)
      ensures Shape() && State() == old(State()).(dac := dac.State(D.Out(true)))
    {
      app.Untouched();
    }

    /** What a call into the application logic's own state leaves alone. */
    twostate lemma AppCalled()
      requires old(Shape()) && app.Valid() && unchanged(adc, dac, dac.updateTx, dac.handlerTx)
      requires unchanged(dac.values, dac.values.buffer)
      ensures Shape() && State() == old(State()).(adc := app.State())
    {
      dac.Untouched();
    }

    /** The rest of APP_LOGIC_init, over modules that have been initialised. */
    constructor (app: App, dac: DacModule.Dac, adc: Adc)
      requires app.Valid() && app.State() == A.Init(app.pool.Slots())
      requires dac.Valid() && dac.State(D.Out(true)) == D.Init()
      requires adc.Valid() && adc.conv.Idle?
      requires app.Repr() !! dac.Repr() && adc !in app.Repr() + dac.Repr() && adc.pool !in app.Repr() + dac.Repr()
      requires app.buffers !in app.Repr() + dac.Repr()
      modifies adc
      ensures this.app == app && this.dac == dac && this.adc == adc
      ensures Valid() && adc.conv.Converting?
      ensures State() == P.Init(app.pool.Slots())
    {
      this.app, this.dac, this.adc := app, dac, adc;
      new;
      StartAdc();
      P.InitInv(app.pool.Slots());
    }

    method StartAdc()
      requires Apart() && app.Valid() && dac.Valid() && adc.Valid() && adc.conv.Idle?
      modifies adc
      ensures Shape() && adc.conv.Converting?
      ensures app.State() == old(app.State()) && dac.State(D.Out(true)) == old(dac.State(D.Out(true)))
      ensures !adc.stopSampling
    {
      adc.StartConv();
      app.Untouched();
      dac.Untouched();
    }

    /** The end of a conversion: the next one is started, then the samples are handed over. */
    method OnAdcEvent(row: nat, size: nat)
      requires Valid() && adc.conv == Converting(row, size) && A.RawOk(Samples())
      modifies Repr()
      ensures Valid()
      ensures State() == P.Next(old(State()), P.AdcIrq(old(Samples())))
      ensures AT.Stored(old(State()).adc, State().adc, old(Samples()))
      ensures State().dac == old(State()).dac && adc.stopSampling == old(adc.stopSampling)
      ensures adc.conv.Converting? && adc.conv.row != row
    {
      ghost var was, raw := State(), Samples();
      AT.CallbackStores(was.adc, raw);
      AdcEventBody(row, size);
      P.NextKeepsInv(was, P.AdcIrq(raw));
    }

    method AdcEventBody(row: nat, size: nat)
      requires Shape() && adc.conv == Converting(row, size) && A.RawOk(Samples())
      modifies app.Repr(), adc
      ensures Shape()
      ensures State() == old(State()).(adc := A.Callback(old(State()).adc, old(Samples())))
      ensures adc.conv.Converting? && adc.conv.row != row
    {
      var descr := NextConversion(row, size);
      HandOver(descr);
    }

    method HandOver(descr: AdcModule.Samples)
      requires Shape() && ReportOk(adc.pool, descr) && A.RawOk(RawOf(adc.pool, descr))
      modifies app.Repr()
      ensures Shape()
      ensures State() == old(State()).(adc := A.Callback(old(State()).adc, old(RawOf(adc.pool, descr))))
    {
      app.AdcSamplesCallback(adc.pool, descr);
      AppCalled();
    }

    method NextConversion(row: nat, size: nat) returns (descr: AdcModule.Samples)
      requires Shape() && adc.conv == Converting(row, size)
      modifies adc
      ensures Shape() && State() == old(State())
      ensures adc.conv.Converting? && adc.conv.row != row
      ensures ReportOk(adc.pool, descr) && RawOf(adc.pool, descr) == old(Samples())
    {
      descr := adc.EventHandler(row, size);
      app.Untouched();
      dac.Untouched();
    }

    /** The completion of a transfer. */
    method OnTwiEvent(evt: DacModule.TwiEvt, txOk: bool)
      requires Valid() && dac.bus.Some?
      modifies Repr()
      ensures Valid()
      ensures State() == P.Next(old(State()), P.TwiIrq(evt.Done?, txOk))
      ensures State().adc == old(State()).adc && adc.stopSampling == old(adc.stopSampling)
    {
      ghost var was := State();
      TwiEventBody(evt, txOk);
      P.NextKeepsInv(was, P.TwiIrq(evt.Done?, txOk));
    }

    method TwiEventBody(evt: DacModule.TwiEvt, txOk: bool)
      requires Shape() && dac.bus.Some?
      modifies dac.Repr()
      ensures Shape()
      ensures State() == old(State()).(dac := D.Complete(old(State()).dac, evt.Done?, txOk))
    {
      ghost var after := D.Complete(State().dac, evt.Done?, txOk);
      dac.TwiEvtHandler(evt, txOk);
      DacCalled();
      assert dac.State(D.Out(true)) == after;
    }

    /** handle_adc_samples; exited says that it left by PT_EXIT. */
    method HandleAdcSamples(txOk: bool) returns (exited: bool)
      requires Valid()
      modifies Repr()
      ensures Valid()
      ensures State() == Settled(P.Handle(old(State()), txOk))
      ensures !old(app.gotAdc) ==> State() == old(State()) && !exited
      ensures AT.Served(old(State()).adc, State().adc, A.Consume(old(State()).adc).1)
      ensures adc.stopSampling <==> old(adc.stopSampling) || exited
      ensures adc.conv == if exited then Idle else old(adc.conv)
      ensures exited <==> old(app.gotAdc) && !CanUpdate(old(State()).dac.d, txOk)
      ensures State().dac.log.pushes == if old(app.gotAdc) then old(State()).dac.log.pushes + [Offered(old(State()))]
                                        else old(State()).dac.log.pushes
    {
      ghost var was := State();
      AT.ConsumeServes(was.adc);
      P.HandleKeepsInv(was, txOk);
      SettledKeepsInv(P.Handle(was, txOk));
      exited := HandleBody(txOk);
    }

    method HandleBody(txOk: bool) returns (exited: bool)
      requires Shape()
      modifies Repr()
      ensures Shape()
      ensures State() == Settled(P.Handle(old(State()), txOk))
      ensures !old(app.gotAdc) ==> State() == old(State()) && !exited
      ensures adc.stopSampling <==> old(adc.stopSampling) || exited
      ensures adc.conv == if exited then Idle else old(adc.conv)
      ensures exited <==> old(app.gotAdc) && old(State()).adc.a.inUse != [] && !CanUpdate(old(State()).dac.d, txOk)
    {
      exited := false;
      var avg := TakeAverage();
      if avg.Some? {
        var updated := UpdateDac(Conversion.SiginMv(avg.value), txOk);
        if !updated {
          StopAdc();
          exited := true;
        }
      }
    }

    method TakeAverage() returns (avg: Option<int>)
      requires Shape()
      modifies app.Repr()
      ensures Shape()
      ensures (State().adc, avg) == A.Consume(old(State()).adc)
      ensures State() == old(State()).(adc := State().adc)
    {
      avg := app.TakeAverage();
      AppCalled();
    }

    method UpdateDac(voltageMv: nat, txOk: bool) returns (ret: bool)
      requires Shape() && voltageMv < 0x1_0000
      modifies dac.Repr()
      ensures Shape()
      ensures ret == D.Update(old(State()).dac, Conversion.Word(voltageMv), txOk).pc.ret
      ensures State() == Settled(old(State()).(dac := D.Update(old(State()).dac, Conversion.Word(voltageMv), txOk)))
    {
      ret := dac.UpdateDac(voltageMv, txOk);
      DacCalled();
    }

    method StopAdc()
      requires Shape()
      modifies adc
      ensures Shape()
      ensures State() == old(State()).(stopped := true)
      ensures adc.conv.Idle?
    {
      adc.StopConv();
      app.Untouched();
      dac.Untouched();
    }
  }

  /** DAC_update_dac succeeds: the value fits into the queue, and the chain is busy or the
      transfer starts. */
  predicate CanUpdate(d: D.Dac, txOk: bool) {
    |d.queue| < 50 && (!d.done || txOk)
  }

  /** The word of the oldest batch, offered to the DAC queue. */
  function Offered(m: P.Machine): D.Try {
    D.Try(P.BatchWord(A.SlotOf(m.adc.a, if m.adc.a.inUse == [] then 0 else m.adc.a.inUse[0])), |m.dac.d.queue| < 50)
  }

  /** Between calls the value DAC_update_dac returned last is gone. */
  function Settled(m: P.Machine): P.Machine {
    m.(dac := m.dac.(pc := D.Out(true)))
  }

  lemma SettledKeepsInv(m: P.Machine)
    requires P.Inv(m) && m.dac.pc.Out?
    ensures P.Inv(Settled(m))
  {
  }
}
