/** modified_ble_nus/ble_nus.c: connection and notification state of the UART service. The
    event a handler passes to data_handler is returned to the caller, which delivers it. */
module BleNus {
  import opened Common

  /** BLE_CONN_HANDLE_INVALID */
  const INVALID_HANDLE: nat := 0xFFFF
  /** BLE_NUS_MAX_DATA_LEN: ATT_MTU - 3, the payload of a notification in section 3.4.7.1
      of the Bluetooth Core Specification, Vol 3, Part F. */
  const MAX_DATA_LEN: nat := 23 - 3

  datatype Code = Success | InvalidState | InvalidParam | Refused

  datatype NusEvt = Rx(data: seq<byte>) | TxCompleted | NotificationOn | NotificationOff

  datatype BleEvt =
    | Connected(handle: nat)
    | Disconnected
    | Write(attr: nat, data: seq<byte>)
    | TxComplete(count: nat)
    | Other

  datatype NusState = NusState(connHandle: nat, notificationEnabled: bool)

  /** ble_srv_is_notification_enabled: bit 0 of the little-endian CCCD value. */
  predicate CccdEnables(data: seq<byte>)
    requires |data| == 2
  {
    data[0] & 1 != 0
  }

  /** Bit 0 means the number is odd, whatever the other bits are. */
  lemma CccdIsOdd(data: seq<byte>)
    requires |data| == 2
    ensures CccdEnables(data) <==> data[0] as int % 2 == 1
  {
    var low := data[0] & 1;
    assert data[0] as int % 2 == low as int;
  }

  /** The service after an event, and the event it reports. */
  function NusOnEvt(s: NusState, cccd: nat, value: nat, e: BleEvt): (NusState, Option<NusEvt>) {
    match e
    case Connected(handle) => (s.(connHandle := handle), None)
    case Disconnected => (NusState(INVALID_HANDLE, false), Some(NotificationOff))
    case Write(attr, data) =>
      if attr == cccd && |data| == 2 then
        if CccdEnables(data) then (s.(notificationEnabled := true), Some(NotificationOn))
        else (s.(notificationEnabled := false), Some(NotificationOff))
      else if attr == value then (s, Some(Rx(data)))
      else (s, None)
    case TxComplete(_) => (s, Some(TxCompleted))
    case Other => (s, None)
  }

  /** What a write does: two bytes to the CCCD set the flag and report it, a write to the value
      reports its data, and any other write does nothing. */
  predicate Written(s: NusState, n: NusState, evt: Option<NusEvt>, cccd: nat, value: nat, attr: nat, data: seq<byte>) {
    && n.connHandle == s.connHandle
    && (attr == cccd && |data| == 2 ==>
         n.notificationEnabled == CccdEnables(data) && evt == Some(if CccdEnables(data) then NotificationOn else NotificationOff))
    && (!(attr == cccd && |data| == 2) ==>
         n == s && evt == if attr == value then Some(Rx(data)) else None)
  }

  class Nus {
    var connHandle: nat
    var notificationEnabled: bool
    const rxCccdHandle: nat
    const txValueHandle: nat

    function State(): NusState
      reads this
    {
      NusState(connHandle, notificationEnabled)
    }

    /** The first guard of ble_nus_string_send. */
    predicate CanSend()
      reads this
    {
      connHandle != INVALID_HANDLE && notificationEnabled
    }

    constructor (rxCccdHandle: nat, txValueHandle: nat)
      ensures State() == NusState(INVALID_HANDLE, false)
      ensures this.rxCccdHandle == rxCccdHandle && this.txValueHandle == txValueHandle
    {
      connHandle, notificationEnabled := INVALID_HANDLE, false;
      this.rxCccdHandle, this.txValueHandle := rxCccdHandle, txValueHandle;
    }

    method OnConnect(handle: nat)
      modifies this
      ensures State() == old(State()).(connHandle := handle)
    {
      connHandle := handle;
    }

    method OnDisconnect() returns (evt: NusEvt)
      modifies this
      ensures State() == NusState(INVALID_HANDLE, false) && evt == NotificationOff
    {
      connHandle := INVALID_HANDLE;
      notificationEnabled := false;
      evt := NotificationOff;
    }

    method OnWrite(attr: nat, data: seq<byte>) returns (evt: Option<NusEvt>)
      modifies this
      ensures (State(), evt) == NusOnEvt(old(State()), rxCccdHandle, txValueHandle, Write(attr, data))
      ensures Written(old(State()), State(), evt, rxCccdHandle, txValueHandle, attr, data)
    {
      if attr == rxCccdHandle && |data| == 2 {
        if CccdEnables(data) {
          notificationEnabled := true;
          evt := Some(NotificationOn);
        } else {
          notificationEnabled := false;
          evt := Some(NotificationOff);
        }
      } else if attr == txValueHandle {
        evt := Some(Rx(data));
      } else {
        evt := None;
      }
    }

    method OnBleEvt(e: BleEvt) returns (evt: Option<NusEvt>)
      modifies this
      ensures evt == Some(TxCompleted) <==> e.TxComplete?
      ensures e.TxComplete? || e.Other? ==> State() == old(State())
      ensures e.Other? ==> evt == None
      ensures e.Connected? ==> State() == NusState(e.handle, old(notificationEnabled)) && evt == None
      ensures e.Disconnected? ==> State() == NusState(0xFFFF, false) && evt == Some(NotificationOff)
      ensures e.Write? ==> Written(old(State()), State(), evt, rxCccdHandle, txValueHandle, e.attr, e.data)
      ensures (State(), evt) == NusOnEvt(old(State()), rxCccdHandle, txValueHandle, e)
    {
      evt := None;
      match e
      case Connected(handle) => OnConnect(handle);
      case Disconnected =>
        var off := OnDisconnect();
        evt := Some(off);
      case Write(attr, data) => evt := OnWrite(attr, data);
      case TxComplete(_) => evt := Some(TxCompleted);
      case Other =>
    }

    /** ble_nus_string_send; hvx is the answer sd_ble_gatts_hvx would give. */
    method StringSend(length: nat, hvx: Code) returns (code: Code)
      ensures code == if !CanSend() then InvalidState else if length > MAX_DATA_LEN then InvalidParam else hvx
    {
      if connHandle == INVALID_HANDLE || !notificationEnabled {
        return InvalidState;
      }
      if length > MAX_DATA_LEN {
        return InvalidParam;
      }
      code := hvx;
    }
  }
}
