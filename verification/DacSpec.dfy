/** The transfer chain of dac.c as a transition system: DAC_update_dac statement by
    statement, with the TWI completion interrupt between any two statements. */
module DacSpec {
  import opened Common

  type word = bv16

  /** DAC_VALUES_QUEUE_LEN */
  const QUEUE_LEN: nat := 50

  /** Which of the two static tx_data arrays a transfer reads. */
  datatype Source = MainArray | IrqArray

  /** The static variables of dac.c and the TWI driver's view. An array is represented by
      the word whose frame it holds; bus is the array behind the outstanding transfer. */
  datatype Dac = Dac(
    queue: seq<word>,
    done: bool,
    mainArray: word,
    irqArray: word,
    bus: Option<Source>)

  datatype Try = Try(value: word, ok: bool)

  /** Every push and every start of a transfer with its outcome; what the transfers carried,
      read from the array when the transfer ended, with its acknowledgement; and the words the
      device has thereby received. */
  datatype Log = Log(pushes: seq<Try>, starts: seq<Try>, wire: seq<Try>, received: seq<word>)

  datatype Pc =
    | Out(ret: bool)
    | Push(value: word)
    | Test
    | Pop
    | Prepare(value: word)
    | Start(value: word)
    | MarkBusy

  datatype Machine = Machine(d: Dac, log: Log, pc: Pc)

  // ---------------------------------------------------------------- statements

  function Content(d: Dac, s: Source): word {
    if s.MainArray? then d.mainArray else d.irqArray
  }

  /** The next statement of DAC_update_dac; ok is the answer of nrf_drv_twi_tx. */
  function Step(m: Machine, ok: bool): Machine {
    var d, log := m.d, m.log;
    match m.pc
    case Out(_) => m
    case Push(value) =>
      var fits := |d.queue| < QUEUE_LEN;
      Machine(if fits then d.(queue := d.queue + [value]) else d,
              log.(pushes := log.pushes + [Try(value, fits)]),
              if fits then Test else Out(false))
    case Test => m.(pc := if d.done then Pop else Out(true))
    case Pop =>
      if d.queue == [] then Machine(d.(queue := []), log, Out(false))
      else Machine(d.(queue := d.queue[1..]), log, Prepare(d.queue[0]))
    case Prepare(value) => Machine(d.(mainArray := value), log, Start(value))
    case Start(value) =>
      Machine(if ok then d.(bus := Some(MainArray)) else d,
              log.(starts := log.starts + [Try(value, ok)]),
              if ok then MarkBusy else Out(false))
    case MarkBusy => Machine(d.(done := false), log, Out(true))
  }

  /** The TWI completion: the transfer ends, and twi_evt_handler starts the next one or
      declares the chain done. */
  function Complete(m: Machine, acked: bool, ok: bool): Machine
    requires m.d.bus.Some?
  {
    var word := Content(m.d, m.d.bus.value);
    var log := m.log.(wire := m.log.wire + [Try(word, acked)],
                      received := m.log.received + if acked then [word] else []);
    var d := m.d.(bus := None);
    if d.queue == [] then Machine(d.(done := true), log, m.pc)
    else
      var value := d.queue[0];
      var d1 := d.(queue := d.queue[1..], irqArray := value);
      Machine(if ok then d1.(bus := Some(IrqArray), done := false) else d1.(done := true),
              log.(starts := log.starts + [Try(value, ok)]), m.pc)
  }

  datatype Event = Call(value: word) | Main(ok: bool) | Irq(acked: bool, ok: bool)

  predicate Enabled(m: Machine, e: Event) {
    (e.Call? ==> m.pc.Out?) && (e.Irq? ==> m.d.bus.Some?)
  }

  /** The assumption dac.c makes: no completion between nrf_drv_twi_tx and the assignment of
      the flag after it. */
  predicate Timely(m: Machine, e: Event) {
    e.Irq? ==> !m.pc.MarkBusy?
  }

  function Next(m: Machine, e: Event): Machine
    requires Enabled(m, e)
  {
    match e
    case Call(value) => m.(pc := Push(value))
    case Main(ok) => Step(m, ok)
    case Irq(acked, ok) => Complete(m, acked, ok)
  }

  predicate EnabledRun(m: Machine, es: seq<Event>)
    decreases es
  {
    es == [] || (Enabled(m, es[0]) && EnabledRun(Next(m, es[0]), es[1..]))
  }

  function Exec(m: Machine, es: seq<Event>): Machine
    requires EnabledRun(m, es)
    decreases es
  {
    if es == [] then m else Exec(Next(m, es[0]), es[1..])
  }

  predicate TimelyRun(m: Machine, es: seq<Event>)
    requires EnabledRun(m, es)
    decreases es
  {
    es == [] || (Timely(m, es[0]) && TimelyRun(Next(m, es[0]), es[1..]))
  }

  function Init(): Machine {
    Machine(Dac([], true, 0, 0, None), Log([], [], [], []), Out(true))
  }

  // ---------------------------------------------------------------- whole functions

  /** DAC_update_dac without preemption. */
  function Update(m: Machine, value: word, ok: bool): Machine {
    var d, log := m.d, m.log;
    if |d.queue| >= QUEUE_LEN then
      Machine(d, log.(pushes := log.pushes + [Try(value, false)]), Out(false))
    else
      var queue, pushed := d.queue + [value], log.(pushes := log.pushes + [Try(value, true)]);
      if !d.done then Machine(d.(queue := queue), pushed, Out(true))
      else
        var started := pushed.(starts := pushed.starts + [Try(queue[0], ok)]);
        var d1 := d.(queue := queue[1..], mainArray := queue[0]);
        if ok then Machine(d1.(bus := Some(MainArray), done := false), started, Out(true))
        else Machine(d1, started, Out(false))
  }

  /** The statements without interrupts are the whole function. */
  lemma UninterruptedIsUpdate(m: Machine, value: word, ok: bool)
    requires m.pc.Out?
    ensures Walk(m.(pc := Push(value)), ok, 6) == Update(m, value, ok)
  {
    var m1 := Step(m.(pc := Push(value)), ok);
    var m2 := Step(m1, ok);
    if m1.pc.Test? && m2.pc.Pop? {
      var m3 := Step(m2, ok);
      assert m1.d.queue == m.d.queue + [value] && m3.pc.Prepare?;
      var m4 := Step(m3, ok);
      var m5 := Step(m4, ok);
      assert Walk(m.(pc := Push(value)), ok, 6) == Walk(m4, ok, 2);
      assert Walk(m4, ok, 2) == Walk(m5, ok, 1);
    }
  }

  function Walk(m: Machine, ok: bool, k: nat): Machine
    decreases k
  {
    if k == 0 || m.pc.Out? then m else Walk(Step(m, ok), ok, k - 1)
  }

  // ---------------------------------------------------------------- the invariant

  /** The values of the attempts that succeeded, or of all of them. */
  ghost function Ok(tries: seq<Try>): seq<word> {
    if tries == [] then []
    else Ok(tries[..|tries| - 1]) + if tries[|tries| - 1].ok then [tries[|tries| - 1].value] else []
  }

  ghost function All(tries: seq<Try>): (s: seq<word>)
    ensures |s| == |tries| && forall i :: 0 <= i < |s| ==> s[i] == tries[i].value
  {
    seq(|tries|, i requires 0 <= i < |tries| => tries[i].value)
  }

  lemma OkAppend(tries: seq<Try>, t: Try)
    ensures Ok(tries + [t]) == Ok(tries) + if t.ok then [t.value] else []
  {
    assert (tries + [t])[..|tries|] == tries;
  }

  /** A value popped by the main loop whose transfer has not been tried yet. */
  function Hand(pc: Pc): seq<word> {
    if pc.Prepare? || pc.Start? then [pc.value] else []
  }

  /** The word on its way: what the array behind the outstanding transfer holds now. */
  function InFlight(d: Dac): seq<word> {
    if d.bus.Some? then [Content(d, d.bus.value)] else []
  }

  predicate Joined(a: seq<word>, b: seq<word>, c: seq<word>, whole: seq<word>) {
    a + b + c == whole
  }

  /** Everything pushed is tried for transmission once, in order, or still queued. */
  ghost predicate Conserved(m: Machine) {
    Joined(All(m.log.starts), Hand(m.pc), m.d.queue, Ok(m.log.pushes))
  }

  /** Everything started is on the wire or in flight, and the arrays were left alone. */
  ghost predicate Carried(m: Machine) {
    Joined(All(m.log.wire), InFlight(m.d), [], Ok(m.log.starts))
  }

  /** The device has received what travelled, without the words it did not acknowledge. */
  ghost predicate Heard(m: Machine) {
    m.log.received == Ok(m.log.wire)
  }

  /** The flag says whether a transfer is outstanding, except between its start and the
      assignment after it. */
  predicate Flagged(m: Machine) {
    && (m.pc.MarkBusy? ==> m.d.done && m.d.bus == Some(MainArray))
    && (!m.pc.MarkBusy? ==> (m.d.done <==> m.d.bus.None?))
    && (m.pc.Pop? || m.pc.Prepare? || m.pc.Start? ==> m.d.done)
    && (m.pc.Start? ==> m.d.mainArray == m.pc.value)
    && |m.d.queue| <= QUEUE_LEN
  }

  predicate AllOk(tries: seq<Try>) {
    forall i :: 0 <= i < |tries| ==> tries[i].ok
  }

  /** Unless a start was refused, nothing waits while the chain is done. */
  predicate Awake(m: Machine) {
    AllOk(m.log.starts) && m.d.done ==> |m.d.queue| <= if m.pc.Test? || m.pc.Pop? then 1 else 0
  }

  ghost predicate Inv(m: Machine) {
    Flagged(m) && Conserved(m) && Carried(m) && Heard(m) && Awake(m)
  }
}
