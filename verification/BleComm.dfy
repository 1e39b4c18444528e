/** ble_comm.c as it is: static variables updated in place over the byte queue, the buffer
    queues and the two-dimensional pool. Every method is tied to the function of CommSpec
    that the run-level results are about. */
module BleComm {
  import opened Common
  import opened NrfQueue
  import opened NotificationBuffers
  import opened BleNus
  import Spec = CommSpec
  import Proofs = CommProofs
  import Theorems = CommTheorems

  class Comm {
    const nus: Nus
    const txQueue: Queue<byte>
    const buffs: NotifBuffers
    const pool: array2<byte>
    var enabled: bool
    var pendPtr: Option<nat>
    var pendLen: nat
    ghost var trace: Spec.Trace

    ghost function Repr(): set<object> {
      {this, pool} + txQueue.Repr() + buffs.Repr()
    }

    /** The objects are distinct and sized as the static definitions size them. */
    ghost predicate Shape()
      reads this, Repr(), buffs
    {
      && buffs.Valid() && txQueue.Valid()
      && txQueue.Repr() !! buffs.Repr()
      && this !in txQueue.Repr() + buffs.Repr()
      && pool as object !in txQueue.Repr() + buffs.Repr()
      && nus !in Repr()
      && buffs !in Repr()
      && txQueue.size == Spec.TX_QUEUE_LEN
      && pool.Length0 == buffs.count
      && pool.Length1 == Spec.BUFFER_LEN
    }

    ghost function Row(i: nat): (r: seq<byte>)
      requires i < pool.Length0
      reads pool
      ensures |r| == pool.Length1 && forall j :: 0 <= j < |r| ==> r[j] == pool[i, j]
    {
      seq(pool.Length1, j requires 0 <= j < pool.Length1 reads pool => pool[i, j])
    }

    ghost function Rows(): (s: seq<seq<byte>>)
      reads this, pool
      ensures |s| == pool.Length0 && forall i :: 0 <= i < |s| ==> s[i] == Row(i)
    {
      seq(pool.Length0, i requires 0 <= i < pool.Length0 reads this, pool => Row(i))
    }

    ghost function World(): Spec.World
      requires Shape()
      reads this, Repr(), buffs
    {
      Spec.World(Spec.Comm(enabled, txQueue.Contents(), buffs.Free(), buffs.InUse(), pendPtr, pendLen, Rows()),
                 trace)
    }

    ghost predicate Valid()
      reads this, Repr(), buffs
    {
      Shape() && Spec.Inv(Spec.Machine(World(), Spec.Idle))
    }

    /** Writes elsewhere leave the module alone. */
    twostate lemma Untouched()
      requires old(Valid()) && unchanged(Repr()) && unchanged(buffs)
      ensures Valid() && World() == old(World()) && enabled == old(enabled)
    {
    }

    constructor (nus: Nus, count: nat)
      requires count > 0
      ensures Valid() && fresh(Repr()) && fresh(buffs)
      ensures this.nus == nus
      ensures World() == Spec.Init(Rows()) && |Rows()| == count
    {
      this.nus := nus;
      txQueue := new Queue<byte>(Spec.TX_QUEUE_LEN);
      buffs := new NotifBuffers(count);
      pool := new byte[count, Spec.BUFFER_LEN];
      enabled, pendPtr, pendLen := false, None, 0;
      trace := Spec.NewTrace(0, 0);
      new;
      assert fresh({this, pool} + txQueue.Repr() + buffs.Repr());
      FirstWorld();
    }

    lemma FirstWorld()
      requires Shape() && buffs.count > 0 && !enabled && pendPtr.None? && pendLen == 0
      requires txQueue.Contents() == [] && buffs.Free() == Iota(buffs.count) && buffs.InUse() == []
      requires trace == Spec.NewTrace(0, 0)
      ensures Valid() && World() == Spec.Init(Rows())
    {
      Proofs.InitInv(Rows());
    }

    method SendData(data: seq<byte>) returns (ret: Spec.Ret)
      requires Valid()
      modifies txQueue.Repr(), this`trace
      ensures Valid()
      ensures (World(), ret) == Spec.SendData(old(World()), data)
      ensures Answer(old(World()), World(), data, ret)
    {
      SendDataAnswers(World(), data);
      ghost var was := World();
      ret := SendDataBody(data);
      SentKeepsInv(was, World(), data);
    }

    method SendDataBody(data: seq<byte>) returns (ret: Spec.Ret)
      requires Shape()
      modifies txQueue.Repr(), this`trace
      ensures Shape()
      ensures (World(), ret) == Spec.SendData(old(World()), data)
    {
      if enabled {
        var status := txQueue.Write(data);
        if status.Success? {
          ret := Spec.Success;
          trace := trace.(written := trace.written + data);
        } else {
          ret := Spec.NoMem;
        }
      } else {
        ret := Spec.InvalidState;
      }
      assert Rows() == old(Rows());
    }

    /** The block copy of nrf_queue_read into a row of the pool. */
    method CopyToRow(buf: nat, data: seq<byte>)
      requires buf < pool.Length0 && |data| <= pool.Length1
      modifies pool
      ensures Rows() == old(Rows())[buf := Spec.Overwrite(old(Row(buf)), data)]
    {
      forall j | 0 <= j < |data| {
        pool[buf, j] := data[j];
      }
      assert Row(buf) == Spec.Overwrite(old(Row(buf)), data);
      forall i | 0 <= i < pool.Length0 && i != buf
        ensures Row(i) == old(Row(i))
      {
      }
    }

    /** Lines 65-76. */
    method SendPendingBuffer(hvx: Code) returns (goOn: bool)
      requires Shape() && pendPtr.Some? && pendLen <= MAX_DATA_LEN
      modifies this`pendPtr, this`trace, buffs.inUseBuffers.Repr()
      ensures Shape()
      ensures goOn == (nus.CanSend() && hvx.Success?)
      ensures World() == Spec.SendPendingBuffer(old(World()), goOn)
    {
      var code := nus.StringSend(pendLen, hvx);
      if code.Success? {
        trace := Spec.Accept(World(), pendPtr.value, pendLen).t;
        var ok := buffs.SetInUseBuffer(pendPtr.value);
        pendPtr := None;
        assert Rows() == old(Rows());
        goOn := true;
      } else {
        goOn := false;
      }
    }

    /** Lines 79-95. */
    method FetchChunk() returns (got: bool, buf: nat, readLen: nat)
      requires Shape() && Theorems.RowsOk(World().c)
      modifies txQueue`front, buffs.freeBuffers`front, pool
      ensures Shape()
      ensures got == (old(World()).c.tx != [] && old(World()).c.free != [])
      ensures !got ==> World() == old(World())
      ensures got ==> buf == old(World()).c.free[0] && readLen == Min(|old(World()).c.tx|, Spec.BUFFER_LEN)
      ensures got ==> World() == Spec.FetchChunk(old(World()))
    {
      got, buf, readLen := false, 0, txQueue.Utilization();
      if readLen > 0 {
        got, buf := TakeFreeRow();
        if got {
          readLen := if readLen > Spec.BUFFER_LEN then Spec.BUFFER_LEN else readLen;
          ReadIntoRow(buf, readLen);
        }
      }
    }

    /** Line 83. */
    method TakeFreeRow() returns (got: bool, buf: nat)
      requires Shape() && Theorems.RowsOk(World().c)
      modifies buffs.freeBuffers`front
      ensures Shape()
      ensures got == (old(World()).c.free != [])
      ensures got ==> buf == old(World()).c.free[0] && buf < pool.Length0
      ensures World() == if got then old(World()).(c := old(World()).c.(free := old(World()).c.free[1..])) else old(World())
    {
      got, buf := buffs.GetFreeBuffer();
      assert got ==> buf in old(World()).c.free;
      assert Rows() == old(Rows());
    }

    /** Line 89; unpreempted, the read cannot fail, and CommSpec.StepFetch has the give-back
        branch. */
    method ReadIntoRow(buf: nat, len: nat)
      requires Shape() && buf < pool.Length0 && len <= Spec.BUFFER_LEN && len <= |txQueue.Contents()|
      modifies txQueue`front, pool
      ensures Shape()
      ensures World() == old(World()).(c := old(World()).c.(
                           tx := old(World()).c.tx[len..],
                           pool := old(Rows())[buf := Spec.Overwrite(old(Row(buf)), old(World()).c.tx[..len])]))
    {
      var status, data := txQueue.Read(len);
      assert status.Success?;
      CopyToRow(buf, data);
    }

    /** Lines 79-112. */
    method SendNextChunk(hvx: Code)
      requires Shape() && Theorems.RowsOk(World().c)
      modifies Repr()
      ensures Shape()
      ensures World() == Spec.SendNextChunk(old(World()), nus.CanSend() && hvx.Success?)
    {
      var got, buf, readLen := FetchChunk();
      if got {
        OfferChunk(buf, readLen, hvx);
      }
    }

    /** Lines 97-108. */
    method OfferChunk(buf: nat, len: nat, hvx: Code)
      requires Shape() && len <= MAX_DATA_LEN
      modifies this`pendPtr, this`pendLen, this`trace, buffs.inUseBuffers.Repr()
      ensures Shape()
      ensures World() == Spec.OfferChunk(old(World()), buf, len, nus.CanSend() && hvx.Success?)
    {
      var code := nus.StringSend(len, hvx);
      if code.Success? {
        trace := Spec.Accept(World(), buf, len).t;
        var marked := buffs.SetInUseBuffer(buf);
      } else {
        pendPtr := Some(buf);
        pendLen := len;
      }
      assert Rows() == old(Rows());
    }

    /** BLE_COMM_tx_process; the arguments are what sd_ble_gatts_hvx answers to the pending
        buffer and to the new one, should they be offered. */
    method TxProcess(hvxPending: Code, hvxNew: Code)
      requires Valid()
      modifies Repr()
      ensures Valid()
      ensures World() == Spec.TxProcess(old(World()), nus.CanSend() && hvxPending.Success?,
                                        nus.CanSend() && hvxNew.Success?)
      ensures Theorems.NothingToDo(old(World()), nus.CanSend() && hvxPending.Success?) ==> World() == old(World())
    {
      ghost var was := World();
      if Theorems.NothingToDo(was, nus.CanSend() && hvxPending.Success?) {
        Theorems.NothingDone(was, nus.CanSend() && hvxPending.Success?, nus.CanSend() && hvxNew.Success?);
      }
      Theorems.InvRows(was);
      TxProcessBody(hvxPending, hvxNew);
      Theorems.TxProcessKeepsInv(was, nus.CanSend() && hvxPending.Success?, nus.CanSend() && hvxNew.Success?);
    }

    method TxProcessBody(hvxPending: Code, hvxNew: Code)
      requires Shape() && Theorems.RowsOk(World().c)
      modifies Repr()
      ensures Shape()
      ensures World() == Spec.TxProcess(old(World()), nus.CanSend() && hvxPending.Success?,
                                        nus.CanSend() && hvxNew.Success?)
    {
      if enabled {
        if pendPtr.Some? {
          var goOn := SendPendingBuffer(hvxPending);
          if !goOn {
            return;
          }
        }
        SendNextChunk(hvxNew);
      }
    }

    method OnTxComplete(ghost count: nat)
      requires Shape()
      modifies buffs.Repr(), this`trace
      ensures Shape()
      ensures World() == Spec.TxComplete(old(World()), count)
    {
      trace := Spec.TxComplete(World(), count).t;
      var got, buf := buffs.GetInUseBuffer();
      if got {
        var ok := buffs.SetFreeBuffer(buf);
      }
      assert Rows() == old(Rows());
    }

    method OnNotificationOn()
      requires Shape()
      modifies Repr()
      ensures Shape()
      ensures World() == Spec.NotificationOn(old(World()))
    {
      trace := Spec.NotificationOn(World()).t;
      enabled := true;
      txQueue.Reset();
      var ok := buffs.Reset();
      pendPtr := None;
      assert Rows() == old(Rows());
    }

    method OnNotificationOff()
      requires Shape()
      modifies this`enabled
      ensures Shape()
      ensures World() == Spec.NotificationOff(old(World()))
    {
      enabled := false;
      assert Rows() == old(Rows());
    }

    /** BLE_COMM_nus_data_handler; count is how many packets a TX_COMPLETE event completes,
        which the source does not look at. */
    method NusDataHandler(evt: NusEvt, ghost count: nat)
      requires Valid()
      modifies Repr()
      ensures Valid()
      ensures World() == Handled(old(World()), evt, count)
      ensures Effect(old(World()), World(), evt)
      ensures enabled == (if evt == NotificationOn then true
                          else if evt == NotificationOff then false else old(enabled))
    {
      HandledKeepsInv(World(), evt, count);
      HandledEffect(World(), evt, count);
      match evt
      case Rx(_) =>
      case TxCompleted => OnTxComplete(count);
      case NotificationOn => OnNotificationOn();
      case NotificationOff => OnNotificationOff();
    }
  }

  /** What BLE_COMM_send_data answers and does: all of the data goes into the queue of 256
      bytes, or nothing happens and the answer says why. */
  ghost predicate Answer(w: Spec.World, n: Spec.World, data: seq<byte>, ret: Spec.Ret) {
    && (ret == Spec.Success <==> w.c.enabled && |w.c.tx| + |data| <= 256)
    && (ret == Spec.InvalidState <==> !w.c.enabled)
    && (ret == Spec.Success ==> n.c == w.c.(tx := w.c.tx + data) && n.t == w.t.(written := w.t.written + data))
    && (ret != Spec.Success ==> n == w)
  }

  lemma SendDataAnswers(w: Spec.World, data: seq<byte>)
    ensures Answer(w, Spec.SendData(w, data).0, data, Spec.SendData(w, data).1)
  {
  }

  /** What an event of the service does: a received write nothing; TX_COMPLETE moves the oldest
      buffer in use to the end of the free queue; NOTIFICATION_ON switches on and starts all
      over; NOTIFICATION_OFF only switches off. */
  ghost predicate Effect(w: Spec.World, n: Spec.World, evt: NusEvt) {
    match evt
    case Rx(_) => n == w
    case TxCompleted =>
      if w.c.inUse == [] then n.c == w.c
      else n.c == w.c.(inUse := w.c.inUse[1..], free := w.c.free + [w.c.inUse[0]])
    case NotificationOn =>
      && n.c.enabled && n.c.tx == [] && n.c.free == Iota(|w.c.pool|) && n.c.inUse == [] && n.c.pend.None?
      && n.c.pool == w.c.pool && n.t.written == [] && n.t.sent == []
    case NotificationOff => n == w.(c := w.c.(enabled := false))
  }

  lemma HandledEffect(w: Spec.World, evt: NusEvt, count: nat)
    requires Spec.Inv(Spec.Machine(w, Spec.Idle))
    ensures Effect(w, Handled(w, evt, count), evt)
  {
    Proofs.PushesSucceed(Spec.Machine(w, Spec.Idle));
  }

  /** The handler is the interrupt of the statement machine, wherever it falls. */
  lemma HandledIsNext(m: Spec.Machine, count: nat)
    ensures Spec.Next(m, Spec.Complete(count)) == m.(w := Handled(m.w, TxCompleted, count))
    ensures Spec.Next(m, Spec.On) == m.(w := Handled(m.w, NotificationOn, count))
    ensures Spec.Next(m, Spec.Off) == m.(w := Handled(m.w, NotificationOff, count))
  {
  }

  lemma SentKeepsInv(w: Spec.World, n: Spec.World, data: seq<byte>)
    requires Spec.Inv(Spec.Machine(w, Spec.Idle)) && n == Spec.SendData(w, data).0
    ensures Spec.Inv(Spec.Machine(n, Spec.Idle))
  {
    var m := Spec.Machine(w, Spec.Idle);
    Proofs.SendKeepsInv(m, data);
    assert Spec.Next(m, Spec.Send(data)) == Spec.Machine(n, Spec.Idle);
  }

  lemma HandledKeepsInv(w: Spec.World, evt: NusEvt, count: nat)
    requires Spec.Inv(Spec.Machine(w, Spec.Idle))
    ensures Spec.Inv(Spec.Machine(Handled(w, evt, count), Spec.Idle))
  {
    var m := Spec.Machine(w, Spec.Idle);
    HandledIsNext(m, count);
    match evt
    case Rx(_) =>
    case TxCompleted => Proofs.CompleteKeepsInv(m, count);
    case NotificationOn => Proofs.OnKeepsInv(m);
    case NotificationOff => Proofs.OffKeepsInv(m);
  }

  ghost function Handled(w: Spec.World, evt: NusEvt, count: nat): Spec.World {
    match evt
    case Rx(_) => w
    case TxCompleted => Spec.TxComplete(w, count)
    case NotificationOn => Spec.NotificationOn(w)
    case NotificationOff => Spec.NotificationOff(w)
  }
}
