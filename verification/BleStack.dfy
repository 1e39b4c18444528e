/** Event dispatch of ble_stack.c over the UART service and the communication module: three
    copies of the connection state that must agree before a notification can be sent. */
module BleStack {
  import opened Common
  import opened BleNus
  import BleComm

  /** The state the guards look at. */
  datatype Gate = Gate(nus: NusState, stackHandle: nat, commEnabled: bool)

  datatype Attrs = Attrs(cccd: nat, value: nat)

  function InitGate(): Gate {
    Gate(NusState(INVALID_HANDLE, false), INVALID_HANDLE, false)
  }

  /** ble_evt_dispatch: the service and its data handler first, then on_ble_evt. */
  function Dispatch(g: Gate, a: Attrs, e: BleEvt): Gate {
    var (nus, evt) := NusOnEvt(g.nus, a.cccd, a.value, e);
    var comm := match evt
      case Some(NotificationOn) => true
      case Some(NotificationOff) => false
      case _ => g.commEnabled;
    var handle := match e
      case Connected(h) => h
      case Disconnected => INVALID_HANDLE
      case _ => g.stackHandle;
    Gate(nus, handle, comm)
  }

  function Run(g: Gate, a: Attrs, es: seq<BleEvt>): Gate
    decreases es
  {
    if es == [] then g else Run(Dispatch(g, a, es[0]), a, es[1..])
  }

  /** The SoftDevice never reports the invalid handle for a connection. */
  predicate ValidEvts(es: seq<BleEvt>) {
    forall i :: 0 <= i < |es| && es[i].Connected? ==> es[i].handle != INVALID_HANDLE
  }

  /** The three copies agree. */
  predicate Agree(g: Gate) {
    g.commEnabled == g.nus.notificationEnabled && g.nus.connHandle == g.stackHandle
  }

  /** Notifications are on only in a connection. */
  predicate Sound(g: Gate) {
    g.commEnabled ==> g.nus.connHandle != INVALID_HANDLE
  }

  predicate Enables(a: Attrs, e: BleEvt) {
    e.Write? && e.attr == a.cccd && |e.data| == 2 && CccdEnables(e.data)
  }

  lemma {:induction false} CopiesAgree(g: Gate, a: Attrs, es: seq<BleEvt>)
    requires Agree(g)
    ensures Agree(Run(g, a, es))
    decreases es
  {
    if es != [] {
      CopiesAgree(Dispatch(g, a, es[0]), a, es[1..]);
    }
  }

  /** The gate is sound after every event of a run. */
  predicate SoundThroughout(g: Gate, a: Attrs, es: seq<BleEvt>)
    decreases es
  {
    Sound(g) && (es == [] || SoundThroughout(Dispatch(g, a, es[0]), a, es[1..]))
  }

  /** Every write that enables notifications arrives while the stack is connected. */
  predicate EnabledOnlyConnected(g: Gate, a: Attrs, es: seq<BleEvt>)
    decreases es
  {
    es == [] || ((Enables(a, es[0]) ==> g.stackHandle != INVALID_HANDLE)
                 && EnabledOnlyConnected(Dispatch(g, a, es[0]), a, es[1..]))
  }

  /** In any run, of any length, the enabled flag implies a valid handle at every moment
      exactly when no enabling write arrives outside a connection. */
  lemma {:induction false} GateExact(g: Gate, a: Attrs, es: seq<BleEvt>)
    requires Agree(g) && Sound(g) && ValidEvts(es)
    ensures SoundThroughout(g, a, es) <==> EnabledOnlyConnected(g, a, es)
    decreases es
  {
    if es != [] {
      var n := Dispatch(g, a, es[0]);
      if Sound(n) {
        GateExact(n, a, es[1..]);
      }
    }
  }

  /** What an event of the SoftDevice does to the communication module. */
  ghost predicate Dispatched(w: BleComm.Spec.World, n: BleComm.Spec.World, a: Attrs, e: BleEvt) {
    match e
    case Connected(_) => n == w
    case Disconnected => BleComm.Effect(w, n, NotificationOff)
    case Write(attr, data) =>
      if attr == a.cccd && |data| == 2 then
        BleComm.Effect(w, n, if CccdEnables(data) then NotificationOn else NotificationOff)
      else n == w
    case TxComplete(_) => BleComm.Effect(w, n, TxCompleted)
    case Other => n == w
  }

  lemma DeliveredIsDispatched(w: BleComm.Spec.World, n: BleComm.Spec.World, s: NusState, a: Attrs, e: BleEvt)
    requires var evt := NusOnEvt(s, a.cccd, a.value, e).1;
             if evt.None? then n == w else BleComm.Effect(w, n, evt.value)
    ensures Dispatched(w, n, a, e)
  {
  }

  /** The number of packets the event completes. */
  function Count(e: BleEvt): nat {
    if e.TxComplete? then e.count else 0
  }

  class Stack {
    const nus: Nus
    const comm: BleComm.Comm
    var connHandle: nat

    function Attributes(): Attrs
    {
      Attrs(nus.rxCccdHandle, nus.txValueHandle)
    }

    function State(): Gate
      reads this, nus, comm
    {
      Gate(nus.State(), connHandle, comm.enabled)
    }

    ghost predicate Valid()
      reads this, nus, comm.Repr(), comm.buffs
    {
      && comm.Valid() && comm.nus == nus
      && this as object !in comm.Repr() && this as object != comm.buffs
    }

    constructor (nus: Nus, comm: BleComm.Comm)
      requires comm.Valid() && comm.nus == nus && !comm.enabled
      requires nus.State() == NusState(INVALID_HANDLE, false)
      ensures Valid() && State() == InitGate() && this.nus == nus && this.comm == comm
    {
      this.nus, this.comm, connHandle := nus, comm, INVALID_HANDLE;
      new;
      comm.Untouched();
    }

    /** BLE_STACK_is_connected */
    predicate IsConnected()
      reads this
    {
      connHandle != INVALID_HANDLE
    }

    /** BLE_COMM_is_comm_enabled. Behind an agreeing gate it says whether the service would
        send, and behind a sound one the flag alone says it too. */
    method IsCommEnabled() returns (r: bool)
      ensures Agree(State()) ==> (r <==> nus.CanSend())
      ensures Agree(State()) && Sound(State()) ==> (r <==> comm.enabled)
      ensures r ==> IsConnected() && comm.enabled
    {
      r := IsConnected() && comm.enabled;
    }

    /** on_ble_evt */
    method OnBleEvt(e: BleEvt)
      requires Valid()
      modifies this`connHandle
      ensures Valid() && comm.World() == old(comm.World()) && comm.enabled == old(comm.enabled)
      ensures nus.State() == old(nus.State())
      ensures connHandle == match e
                            case Connected(h) => h
                            case Disconnected => INVALID_HANDLE
                            case _ => old(connHandle)
    {
      match e
      case Connected(h) => connHandle := h;
      case Disconnected => connHandle := INVALID_HANDLE;
      case _ =>
      comm.Untouched();
    }

    /** ble_nus_on_ble_evt */
    method NusOnBleEvt(e: BleEvt) returns (evt: Option<NusEvt>)
      requires Valid()
      modifies nus
      ensures Valid() && comm.World() == old(comm.World()) && comm.enabled == old(comm.enabled)
      ensures connHandle == old(connHandle)
      ensures (nus.State(), evt) == NusOnEvt(old(nus.State()), nus.rxCccdHandle, nus.txValueHandle, e)
    {
      evt := nus.OnBleEvt(e);
      comm.Untouched();
    }

    method EvtDispatch(e: BleEvt)
      requires Valid()
      modifies this, nus, comm.Repr()
      ensures Valid()
      ensures State() == Dispatch(old(State()), Attributes(), e)
      ensures comm.World() == match NusOnEvt(old(nus.State()), nus.rxCccdHandle, nus.txValueHandle, e).1
                              case Some(evt) => BleComm.Handled(old(comm.World()), evt, Count(e))
                              case None => old(comm.World())
      ensures Dispatched(old(comm.World()), comm.World(), Attributes(), e)
    {
      ghost var was, s := comm.World(), nus.State();
      var evt := NusOnBleEvt(e);
      Deliver(evt, Count(e));
      DeliveredIsDispatched(was, comm.World(), s, Attributes(), e);
      OnBleEvt(e);
    }

    /** The call of data_handler. */
    method Deliver(evt: Option<NusEvt>, ghost count: nat)
      requires Valid()
      modifies comm.Repr()
      ensures Valid() && nus.State() == old(nus.State()) && connHandle == old(connHandle)
      ensures comm.World() == if evt.Some? then BleComm.Handled(old(comm.World()), evt.value, count) else old(comm.World())
      ensures evt.Some? ==> BleComm.Effect(old(comm.World()), comm.World(), evt.value)
      ensures comm.enabled == (if evt == Some(NotificationOn) then true
                               else if evt == Some(NotificationOff) then false else old(comm.enabled))
    {
      if evt.Some? {
        comm.NusDataHandler(evt.value, count);
      }
    }

    /** While the gate agrees and is sound, a whole call of BLE_COMM_tx_process is never
        turned away by the guard of ble_nus_string_send: what is sent is decided by the
        SoftDevice alone. */
    method TxProcess(hvxPending: Code, hvxNew: Code)
      requires Valid() && Agree(State()) && Sound(State())
      modifies comm.Repr()
      ensures Valid() && Agree(State()) && Sound(State())
      ensures comm.World() == BleComm.Spec.TxProcess(old(comm.World()), hvxPending.Success?, hvxNew.Success?)
    {
      comm.TxProcess(hvxPending, hvxNew);
      assert comm.enabled == comm.World().c.enabled;
    }
  }
}
