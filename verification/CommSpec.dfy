/** The transmit path of ble_comm.c as a transition system at two granularities: whole
    functions, and single statements of BLE_COMM_tx_process with interrupts in between. */
module CommSpec {
  import opened Common

  /** NOTIF_BUFFERS_ONE_BUFFER_LEN */
  const BUFFER_LEN: nat := 20
  /** BLE_COMM_TX_QUEUE_LEN */
  const TX_QUEUE_LEN: nat := 256

  /** The static variables of ble_comm.c. A buffer pointer is the row it points to. */
  datatype Comm = Comm(
    enabled: bool,
    tx: seq<byte>,
    free: seq<nat>,
    inUse: seq<nat>,
    pend: Option<nat>,
    pendLen: nat,
    pool: seq<seq<byte>>)

  /** A notification the SoftDevice accepted: the row it was sent from, and its bytes. */
  datatype Packet = Packet(buf: nat, payload: seq<byte>)

  /** What happened since the last NOTIFICATION_ON: the bytes accepted for sending, the
      packets the SoftDevice took, the buffers freed, the TX_COMPLETE events that arrived and
      the packets they completed. `stale` counts the packets the SoftDevice has to complete
      before those, `dropped` says that it lost the link and completes none any more, and
      `nulls` counts, over all epochs, the notifications it took with a NULL pointer, for
      which it sends whatever the attribute holds. */
  datatype Trace = Trace(
    written: seq<byte>,
    sent: seq<Packet>,
    freed: nat,
    arrived: nat,
    completed: nat,
    stale: nat,
    dropped: bool,
    nulls: nat)

  function NewTrace(stale: nat, nulls: nat): Trace {
    Trace([], [], 0, 0, 0, stale, false, nulls)
  }

  datatype World = World(c: Comm, t: Trace)

  // ---------------------------------------------------------------- queues and payloads

  /** nrf_queue_read copies bytes over the start of a row. */
  function Overwrite(row: seq<byte>, bytes: seq<byte>): (r: seq<byte>) {
    if |bytes| <= |row| then bytes + row[|bytes|..] else bytes
  }

  function Payload(c: Comm, buf: nat, len: nat): seq<byte> {
    if buf < |c.pool| && len <= |c.pool[buf]| then c.pool[buf][..len] else []
  }

  ghost function Flat(sent: seq<Packet>): seq<byte> {
    if sent == [] then [] else Flat(sent[..|sent| - 1]) + sent[|sent| - 1].payload
  }

  lemma FlatAppend(sent: seq<Packet>, p: Packet)
    ensures Flat(sent + [p]) == Flat(sent) + p.payload
  {
    assert (sent + [p])[..|sent|] == sent;
  }

  ghost function Bufs(sent: seq<Packet>): (s: seq<nat>)
    ensures |s| == |sent|
    ensures forall i :: 0 <= i < |s| ==> s[i] == sent[i].buf
  {
    seq(|sent|, i requires 0 <= i < |sent| => sent[i].buf)
  }

  // ---------------------------------------------------------------- whole functions

  function Init(pool: seq<seq<byte>>): World {
    World(Comm(false, [], Iota(|pool|), [], None, 0, pool), NewTrace(0, 0))
  }

  datatype Ret = Success | NoMem | InvalidState

  /** BLE_COMM_send_data */
  function SendData(w: World, data: seq<byte>): (World, Ret) {
    if !w.c.enabled then (w, InvalidState)
    else if |w.c.tx| + |data| <= TX_QUEUE_LEN then
      (World(w.c.(tx := w.c.tx + data), w.t.(written := w.t.written + data)), Success)
    else (w, NoMem)
  }

  /** The SoftDevice completes count packets, in the order it accepted them, so those of
      earlier epochs come first. */
  function Advance(t: Trace, count: nat): Trace {
    var earlier := Min(t.stale, count);
    var done := if t.dropped || t.completed > |t.sent| then t.completed
                else Min(t.completed + count - earlier, |t.sent|);
    t.(arrived := t.arrived + 1, stale := t.stale - earlier, completed := done)
  }

  /** BLE_NUS_EVT_TYPE_TX_COMPLETE: whatever the event counts, one buffer is freed. */
  function TxComplete(w: World, count: nat): World {
    var t := Advance(w.t, count);
    if w.c.inUse == [] then w.(t := t)
    else World(w.c.(inUse := w.c.inUse[1..], free := Pushed(w.c.free, w.c.inUse[0], |w.c.pool|)),
               t.(freed := t.freed + 1))
  }

  /** Packets the SoftDevice still has to complete. */
  function Open(t: Trace): nat {
    if t.dropped || t.completed > |t.sent| then t.stale else t.stale + |t.sent| - t.completed
  }

  /** BLE_NUS_EVT_TYPE_NOTIFICATION_ON: a new epoch starts. */
  function NotificationOn(w: World): World {
    World(w.c.(enabled := true, tx := [], free := Iota(|w.c.pool|), inUse := [], pend := None),
          NewTrace(Open(w.t), w.t.nulls))
  }

  /** The link is lost, and with it what the SoftDevice had still to send. */
  function LinkLost(w: World): World {
    w.(t := w.t.(stale := 0, dropped := true))
  }

  function NotificationOff(w: World): World {
    w.(c := w.c.(enabled := false))
  }

  /** hvx accepts the first len bytes of a row. */
  function Accept(w: World, buf: nat, len: nat): World {
    w.(t := w.t.(sent := w.t.sent + [Packet(buf, Payload(w.c, buf, len))]))
  }

  /** hvx accepts a NULL pointer and sends the attribute's value. No packet of this epoch can
      have been sent before, so this one is completed before all of them. */
  function AcceptNull(w: World): World {
    w.(t := w.t.(stale := w.t.stale + 1, nulls := w.t.nulls + 1))
  }

  /** Lines 65-76: the pending buffer first. */
  function SendPendingBuffer(w: World, accept: bool): World
    requires w.c.pend.Some?
  {
    if accept then
      var w1 := Accept(w, w.c.pend.value, w.c.pendLen);
      w1.(c := w1.c.(inUse := Pushed(w1.c.inUse, w.c.pend.value, |w.c.pool|), pend := None))
    else w
  }

  /** Lines 79-95: move the next bytes of the queue into the next free buffer. */
  function FetchChunk(w: World): World
    requires w.c.tx != [] && w.c.free != []
  {
    var buf, len := w.c.free[0], Min(|w.c.tx|, BUFFER_LEN);
    var pool := if buf < |w.c.pool|
                then w.c.pool[buf := Overwrite(w.c.pool[buf], w.c.tx[..len])] else w.c.pool;
    w.(c := w.c.(free := w.c.free[1..], tx := w.c.tx[len..], pool := pool))
  }

  /** Lines 79-112: cut the next notification off the byte queue and offer it. */
  function SendNextChunk(w: World, accept: bool): World {
    if w.c.tx == [] || w.c.free == [] then w
    else OfferChunk(FetchChunk(w), w.c.free[0], Min(|w.c.tx|, BUFFER_LEN), accept)
  }

  /** Lines 97-108: the new buffer is in use if hvx takes it, and pending otherwise. */
  function OfferChunk(w: World, buf: nat, len: nat, accept: bool): World {
    var c := w.c;
    if accept then Accept(w, buf, len).(c := c.(inUse := Pushed(c.inUse, buf, |c.pool|)))
    else w.(c := c.(pend := Some(buf), pendLen := len))
  }

  /** BLE_COMM_tx_process without preemption; the two flags are the answers of
      ble_nus_string_send to the pending buffer and to the new one. */
  function TxProcess(w: World, acceptPending: bool, acceptNew: bool): World {
    if !w.c.enabled then w
    else if w.c.pend.None? then SendNextChunk(w, acceptNew)
    else if !acceptPending then w
    else SendNextChunk(SendPendingBuffer(w, true), acceptNew)
  }

  // ---------------------------------------------------------------- single statements

  /** Where BLE_COMM_tx_process stands, with its live local variables. The two calls that take
      the pending pointer evaluate it in a step of its own (LoadPending, LoadMark): what
      happens inside the callee before its effect happens after that. */
  datatype Pc =
    | Idle
    | CheckPending
    | LoadPending
    | SendPending(ptr: Option<nat>, len: nat)
    | LoadMark
    | MarkPending(ptr: Option<nat>)
    | ClearPending
    | CheckQueue
    | TakeFree(readLen: nat)
    | ReadQueue(buf: nat, readLen: nat)
    | GiveBack(buf: nat)
    | SendNew(buf: nat, len: nat)
    | MarkNew(buf: nat)
    | SetPending(buf: nat, len: nat)
    | SetPendingLen(buf: nat, len: nat)

  datatype Machine = Machine(w: World, pc: Pc)

  /** Lines 65-76: offer the pending buffer to the SoftDevice. */
  function StepPending(m: Machine, accept: bool): Machine {
    var w, c := m.w, m.w.c;
    match m.pc
    case CheckPending => m.(pc := if c.pend.Some? then LoadPending else CheckQueue)
    case LoadPending => m.(pc := SendPending(c.pend, c.pendLen))
    case SendPending(ptr, len) =>
      if !accept then m.(pc := Idle)
      else if ptr.Some? then Machine(Accept(w, ptr.value, len), LoadMark)
      else Machine(AcceptNull(w), LoadMark)
    case LoadMark => m.(pc := MarkPending(c.pend))
    case MarkPending(ptr) =>
      if ptr.Some? then Machine(w.(c := c.(inUse := Pushed(c.inUse, ptr.value, |c.pool|))), ClearPending)
      else m.(pc := ClearPending)
    case _ => Machine(w.(c := c.(pend := None)), CheckQueue)
  }

  /** Lines 79-95: move bytes from the queue into a free buffer. */
  function StepFetch(m: Machine): Machine {
    var w, c := m.w, m.w.c;
    match m.pc
    case TakeFree(readLen) =>
      if c.free == [] then m.(pc := Idle)
      else Machine(w.(c := c.(free := c.free[1..])), ReadQueue(c.free[0], Min(readLen, BUFFER_LEN)))
    case ReadQueue(buf, len) =>
      if len > |c.tx| then m.(pc := GiveBack(buf))
      else
        var pool := if buf < |c.pool|
                    then c.pool[buf := Overwrite(c.pool[buf], c.tx[..len])] else c.pool;
        Machine(w.(c := c.(tx := c.tx[len..], pool := pool)), SendNew(buf, len))
    case GiveBack(buf) => Machine(w.(c := c.(free := Pushed(c.free, buf, |c.pool|))), Idle)
    case _ => m.(pc := if c.tx == [] then Idle else TakeFree(|c.tx|))
  }

  /** Lines 97-108: offer the new buffer to the SoftDevice, or keep it as pending. */
  function StepOffer(m: Machine, accept: bool): Machine {
    var w, c := m.w, m.w.c;
    match m.pc
    case SendNew(buf, len) =>
      if accept then Machine(Accept(w, buf, len), MarkNew(buf)) else m.(pc := SetPending(buf, len))
    case MarkNew(buf) => Machine(w.(c := c.(inUse := Pushed(c.inUse, buf, |c.pool|))), Idle)
    case SetPending(buf, len) => Machine(w.(c := c.(pend := Some(buf))), SetPendingLen(buf, len))
    case SetPendingLen(_, len) => Machine(w.(c := c.(pendLen := len)), Idle)
    case _ => m
  }

  predicate PendingPart(pc: Pc) {
    pc.CheckPending? || pc.LoadPending? || pc.SendPending? || pc.LoadMark? || pc.MarkPending? || pc.ClearPending?
  }

  predicate FetchPart(pc: Pc) {
    pc.CheckQueue? || pc.TakeFree? || pc.ReadQueue? || pc.GiveBack?
  }

  /** The next statement of BLE_COMM_tx_process; Idle calls it. */
  function Step(m: Machine, accept: bool): Machine {
    if m.pc.Idle? then (if m.w.c.enabled then m.(pc := CheckPending) else m)
    else if PendingPart(m.pc) then StepPending(m, accept)
    else if FetchPart(m.pc) then StepFetch(m)
    else StepOffer(m, accept)
  }

  /** What can happen next: a statement of the main loop, or an interrupt. */
  datatype Event = Main(accept: bool) | Complete(count: nat) | Off | On | Drop | Send(data: seq<byte>)

  function Next(m: Machine, e: Event): Machine {
    match e
    case Main(accept) => Step(m, accept)
    case Complete(count) => m.(w := TxComplete(m.w, count))
    case Off => m.(w := NotificationOff(m.w))
    case On => m.(w := NotificationOn(m.w))
    case Drop => m.(w := LinkLost(m.w))
    case Send(data) => m.(w := SendData(m.w, data).0)
  }

  /** The points between the read of a chunk and the place it is recorded in, and the one inside
      the marking of a sent pending buffer. A reset there leaves a buffer in two places. */
  predicate Exposed(pc: Pc) {
    pc.SendNew? || pc.MarkNew? || pc.SetPending? || (pc.MarkPending? && pc.ptr.Some?)
  }

  /** ble_nus_string_send was called with a pointer that a reset has cleared since. */
  predicate StaleSend(m: Machine) {
    m.pc.SendPending? && m.pc.ptr.Some? && m.w.c.pend.None?
  }

  /** BLE_COMM_send_data is called by the main loop only, so never inside tx_process. The
      reset of NOTIFICATION_ON is assumed not to fall on an exposed point, nor on the call
      that offers the pending buffer, unless the SoftDevice then refuses it. */
  predicate Allowed(m: Machine, e: Event) {
    && (e.On? ==> !Exposed(m.pc))
    && (e.Send? ==> m.pc.Idle?)
    && (e.Main? && StaleSend(m) ==> !e.accept)
  }

  function Exec(m: Machine, es: seq<Event>): Machine
    decreases es
  {
    if es == [] then m else Exec(Next(m, es[0]), es[1..])
  }

  predicate AllowedRun(m: Machine, es: seq<Event>)
    decreases es
  {
    es == [] || (Allowed(m, es[0]) && AllowedRun(Next(m, es[0]), es[1..]))
  }

  // ---------------------------------------------------------------- the invariant

  function Pending(c: Comm): seq<nat> {
    if c.pend.Some? then [c.pend.value] else []
  }

  /** The statements that hold a popped buffer in the local variable buff_ptr. */
  predicate HoldsLocal(pc: Pc) {
    pc.ReadQueue? || pc.GiveBack? || pc.SendNew? || pc.MarkNew? || pc.SetPending?
  }

  /** A reset has put the buffer in the local variable back on the free queue. The read that
      follows finds the byte queue empty, and the push that gives the buffer back is refused. */
  predicate Void(m: Machine) {
    (m.pc.ReadQueue? || m.pc.GiveBack?) && |m.w.c.free| >= |m.w.c.pool|
  }

  /** The buffer that is in none of the two queues. */
  function Held(m: Machine): seq<nat> {
    if HoldsLocal(m.pc) then (if Void(m) then [] else [m.pc.buf])
    else if m.pc.ClearPending? then []
    else Pending(m.w.c)
  }

  /** A buffer already accepted by the SoftDevice but not yet pushed on the in-use queue. */
  function Marking(m: Machine): seq<nat> {
    if m.pc.MarkNew? then [m.pc.buf]
    else if m.pc.LoadMark? || m.pc.MarkPending? then Pending(m.w.c)
    else []
  }

  /** Bytes taken off the queue and not yet accepted by the SoftDevice. */
  function InHand(m: Machine): seq<byte> {
    if m.pc.SendNew? || m.pc.SetPending? then Payload(m.w.c, m.pc.buf, m.pc.len)
    else if m.w.c.pend.None? || m.pc.LoadMark? || m.pc.MarkPending? || m.pc.ClearPending? then []
    else Payload(m.w.c, m.w.c.pend.value, if m.pc.SetPendingLen? then m.pc.len else m.w.c.pendLen)
  }

  predicate WellFormed(c: Comm) {
    |c.pool| > 0 && |c.tx| <= TX_QUEUE_LEN && (forall i :: 0 <= i < |c.pool| ==> |c.pool[i]| == BUFFER_LEN)
  }

  /** What the local variables and the pending slot satisfy at each statement. */
  predicate LocalsOk(m: Machine) {
    var c, pc := m.w.c, m.pc;
    && (c.pend.Some? && !pc.SetPendingLen? ==> 0 < c.pendLen <= BUFFER_LEN)
    && (Void(m) ==> c.tx == [])
    && (pc.LoadPending? || pc.SendPending? ==> c.pend.Some? || m.w.t.sent == [])
    && (pc.SendPending? && c.pend.Some? ==> pc.ptr == c.pend && pc.len == c.pendLen)
    && (pc.SendPending? && pc.ptr.Some? ==> pc.ptr.value < |c.pool| && 0 < pc.len <= BUFFER_LEN)
    && (pc.MarkPending? ==> pc.ptr == c.pend)
    && (HoldsLocal(pc) || pc.CheckQueue? || pc.TakeFree? ==> c.pend.None?)
    && (pc.TakeFree? ==> pc.readLen > 0 && (c.tx == [] || pc.readLen == |c.tx|))
    && (pc.ReadQueue? ==> 0 < pc.readLen <= BUFFER_LEN && (c.tx == [] || pc.readLen == Min(|c.tx|, BUFFER_LEN)))
    && (pc.SendNew? || pc.SetPending? || pc.SetPendingLen? ==> 0 < pc.len <= BUFFER_LEN)
  }

  /** Every pool buffer is in exactly one place. */
  predicate Owned(m: Machine) {
    Partition(|m.w.c.pool|, m.w.c.free, m.w.c.inUse, Held(m))
  }

  /** The in-use queue lists the accepted buffers that no event has freed yet, in order. */
  ghost predicate Linked(m: Machine) {
    m.w.t.freed <= |m.w.t.sent| && m.w.t.completed <= |m.w.t.sent|
    && Tracks(m.w.c.inUse, Marking(m), m.w.t)
  }

  ghost predicate Tracks(inUse: seq<nat>, marking: seq<nat>, t: Trace)
    requires t.freed <= |t.sent|
  {
    inUse + marking == Bufs(t.sent[t.freed..])
  }

  /** The bytes behind an accepted and not yet freed packet are the ones hvx was given. */
  predicate Stable(w: World) {
    w.t.freed <= |w.t.sent|
    && forall i :: w.t.freed <= i < |w.t.sent| ==>
         var p := w.t.sent[i];
         |p.payload| <= BUFFER_LEN && p.payload == Payload(w.c, p.buf, |p.payload|)
  }

  /** No byte is lost, repeated or reordered on its way to the SoftDevice. */
  ghost predicate Streamed(m: Machine) {
    Joins(Flat(m.w.t.sent), InHand(m), m.w.c.tx, m.w.t.written)
  }

  predicate Joins(sent: seq<byte>, hand: seq<byte>, queued: seq<byte>, written: seq<byte>) {
    sent + hand + queued == written
  }

  ghost predicate Inv(m: Machine) {
    WellFormed(m.w.c) && LocalsOk(m) && Owned(m) && Linked(m) && Stable(m.w) && Streamed(m)
  }
}
