/**
 One tunnel stream as the event loop, its bridge task and the HTTP/3 library share it, and the
 invariant each of their actions keeps. `EventLoop` composes many of these.
 */
module StreamModel {
  import opened Bytes
  import opened StreamCore

  /** What the event loop's `streams` map holds for the id: nothing yet, a `StreamState`, nothing
      any more because `reap_streams` dropped it, or nothing because a reset, a refusal or the end
      of the connection did. */
  datatype Slot = Unopened | Live(entry: Entry) | Reaped | Cut

  /** The bridge task: not started, running, past dropping its `QuicStream`, past its close notice. */
  datatype Task = Absent | Alive | Dropped | Ended

  /** The `QuicStream` and the inbound channel it reads. `credit` marks the moment between its
      `poll_recv` and its `notify_one`. */
  datatype Side = Side(task: Task, credit: bool, rxBuf: bytes, rxEof: bool, shutdownSent: bool, chan: seq<bytes>)

  const NO_SIDE: Side := Side(Absent, false, [], false, false, [])

  /** What happened so far: messages put into the egress channel and taken out of it by the loop,
      bytes taken from `recv_body` and bytes returned by `poll_read`. */
  datatype History = History(sent: seq<StreamOut>, handled: seq<StreamOut>, taken: bytes, read: bytes)

  const NO_HISTORY: History := History([], [], [], [])

  datatype Stream = Stream(slot: Slot, side: Side, send: SendSide, recv: RecvSide, hist: History)

  /** The sender half of the inbound channel exists: the bridge has not been told EOF. */
  predicate SenderOpen(st: Stream) {
    st.slot.Live? && st.slot.entry.inboundOpen
  }

  /** The payload bytes of a list of messages. */
  function Payload(ms: seq<StreamOut>): bytes {
    if ms == [] then []
    else if ms[0].Data? then ms[0].payload + Payload(ms[1..])
    else Payload(ms[1..])
  }

  lemma {:induction false} PayloadAppend(a: seq<StreamOut>, b: seq<StreamOut>)
    ensures Payload(a + b) == Payload(a) + Payload(b)
  {
    if a == [] {
      assert a + b == b;
    } else {
      assert (a + b)[1..] == a[1..] + b;
      PayloadAppend(a[1..], b);
    }
  }

  lemma PayloadSnoc(a: seq<StreamOut>, m: StreamOut)
    ensures Payload(a + [m]) == if m.Data? then Payload(a) + m.payload else Payload(a)
  {
    PayloadAppend(a, [m]);
    assert Payload([m]) == (if m.Data? then m.payload else []) + Payload([]);
  }

  /** No Data after Fin and nothing after Closed. */
  ghost predicate Orderly(ms: seq<StreamOut>) {
    forall i, j :: 0 <= i < j < |ms| ==> !ms[i].Closed? && (ms[i].Fin? ==> ms[j].Closed?)
  }

  lemma {:induction false} NoDataNoPayload(ms: seq<StreamOut>)
    requires forall m :: m in ms ==> !m.Data?
    ensures Payload(ms) == []
  {
    if ms != [] {
      NoDataNoPayload(ms[1..]);
    }
  }

  /** Once the fin has been handled, the messages still queued carry no bytes. */
  lemma FinEndsPayload(handled: seq<StreamOut>, q: seq<StreamOut>)
    requires Orderly(handled + q) && Fin in handled
    ensures Payload(handled + q) == Payload(handled)
  {
    var i :| 0 <= i < |handled| && handled[i] == Fin;
    forall m | m in q ensures !m.Data? {
      var j :| 0 <= j < |q| && q[j] == m;
      assert (handled + q)[i].Fin? && (handled + q)[|handled| + j] == m;
    }
    NoDataNoPayload(q);
    PayloadAppend(handled, q);
  }

  /** While messages are still queued the close notice has not been handled, and once the fin has
      been, only the close notice can follow. */
  lemma QueuedMeansOpen(handled: seq<StreamOut>, q: seq<StreamOut>)
    requires Orderly(handled + q) && q != []
    ensures Closed !in handled && (Fin in handled ==> q[0] == Closed)
  {
    assert (handled + q)[|handled|] == q[0];
    forall i | 0 <= i < |handled|
      ensures !handled[i].Closed? && (handled[i].Fin? ==> q[0] == Closed)
    {
      assert (handled + q)[i] == handled[i];
    }
  }

  // ---------------------------------------------------------------- the invariant

  /** `q` is what the egress channel still holds of this stream. */
  ghost predicate Messages(st: Stream, q: seq<StreamOut>) {
    && st.hist.sent == st.hist.handled + q
    && Orderly(st.hist.sent)
    && (Fin in st.hist.sent ==> st.side.shutdownSent)
    && (Closed in st.hist.sent ==> st.side.task == Ended)
    && (st.side.task == Absent ==> st.hist.sent == [])
  }

  /** The loop's entry agrees with the messages handled and with what the library took. */
  ghost predicate LiveSend(e: Entry, o: SendSide, handled: seq<StreamOut>) {
    && (e.finPending <==> Fin in handled)
    && (e.closed <==> Closed in handled)
    && (!o.failed ==> Payload(handled) == o.accepted + Flatten(e.pending))
    && (e.finSent ==> o.failed || o.fins == 1)
    && (o.fins == 1 ==> e.finSent)
  }

  ghost predicate SendInv(st: Stream) {
    var h := st.hist.handled;
    && st.send.accepted <= Payload(h)
    && st.send.fins <= 1
    && (st.send.fins == 1 ==> Fin in h && st.send.accepted == Payload(h))
    && (st.slot.Live? ==> LiveSend(st.slot.entry, st.send, h))
    && (st.slot.Unopened? ==> st.send == FRESH_SEND.(blocked := st.send.blocked))
    && (st.slot.Reaped? ==> Settled(st))
  }

  /** All the bridge sent was handled, and the library has it all, fin included, unless it failed. */
  ghost predicate Settled(st: Stream) {
    var h := st.hist.handled;
    && Closed in h
    && (!st.send.failed ==> st.send.accepted == Payload(h) && (Fin in h ==> st.send.fins == 1))
  }

  /** Why the bridge may be told EOF. */
  predicate InboundOver(st: Stream) {
    st.slot.Cut? || st.recv.failed || Finished(st.recv)
  }

  ghost predicate RecvInv(st: Stream) {
    var side := st.side;
    && ChanOk(side.chan)
    && |side.rxBuf| <= RECV_CHUNK
    && st.hist.read <= st.hist.taken
    && (side.task == Alive ==> st.hist.taken == st.hist.read + side.rxBuf + Flatten(side.chan))
    && (side.task == Absent ==> side == NO_SIDE && st.hist.taken == [] && !st.slot.Live?)
    && (st.slot.Unopened? ==> side.task == Absent)
    && (st.slot.Reaped? ==> side.task == Ended)
    && (side.task == Alive && !SenderOpen(st) ==> InboundOver(st))
    && (side.rxEof ==>
          side.rxBuf == [] && side.chan == [] && !SenderOpen(st) && InboundOver(st) && st.hist.read == st.hist.taken)
    && (side.credit ==> side.task == Alive)
    && (side.task == Dropped || side.task == Ended ==> side.chan == [])
  }

  ghost predicate StreamInv(st: Stream, q: seq<StreamOut>) {
    Messages(st, q) && SendInv(st) && RecvInv(st)
  }

  // ---------------------------------------------------------------- actions of the bridge

  /** `poll_write`, `poll_shutdown` and the close notice put one message into the egress channel. */
  function Emit(st: Stream, m: StreamOut): Stream {
    var side := match m
      case Data(_) => st.side
      case Fin => st.side.(shutdownSent := true)
      case Closed => st.side.(task := Ended);
    st.(side := side, hist := st.hist.(sent := st.hist.sent + [m]))
  }

  /** The bridge may write while its `QuicStream` lives and before its shutdown, shut down once, and
      gives its close notice once, after dropping the `QuicStream`. */
  predicate MayEmit(st: Stream, m: StreamOut) {
    if m.Closed? then st.side.task == Dropped else st.side.task == Alive && !st.side.shutdownSent
  }

  lemma EmitKeeps(st: Stream, q: seq<StreamOut>, m: StreamOut)
    requires StreamInv(st, q) && MayEmit(st, m)
    ensures StreamInv(Emit(st, m), q + [m])
  {
    var sent := st.hist.sent;
    assert sent + [m] == st.hist.handled + (q + [m]);
    assert Closed !in sent;
    assert !m.Closed? ==> Fin !in sent;
  }

  /** `poll_recv` hands the head of the channel to `rx_buf`. */
  function Pop(st: Stream): Stream
    requires st.side.chan != []
  {
    st.(side := st.side.(rxBuf := st.side.chan[0], chan := st.side.chan[1..], credit := true))
  }

  /** `poll_read` copies out of `rx_buf`. */
  function Take(st: Stream, n: nat): Stream
    requires n <= |st.side.rxBuf|
  {
    st.(side := st.side.(rxBuf := st.side.rxBuf[n..]),
        hist := st.hist.(read := st.hist.read + st.side.rxBuf[..n]))
  }

  predicate Reading(st: Stream) {
    st.side.task == Alive && !st.side.credit
  }

  lemma PopKeeps(st: Stream, q: seq<StreamOut>)
    requires StreamInv(st, q) && Reading(st) && st.side.rxBuf == [] && st.side.chan != []
    ensures StreamInv(Pop(st), q)
  {
    var chan := st.side.chan;
    assert Flatten(chan) == chan[0] + Flatten(chan[1..]);
    assert st.hist.read + [] + (chan[0] + Flatten(chan[1..])) == st.hist.read + chan[0] + Flatten(chan[1..]);
  }

  lemma TakeKeeps(st: Stream, q: seq<StreamOut>, n: nat)
    requires StreamInv(st, q) && Reading(st) && n <= |st.side.rxBuf|
    ensures StreamInv(Take(st, n), q)
  {
    var b := st.side.rxBuf;
    assert b == b[..n] + b[n..];
    assert st.hist.read + (b[..n] + b[n..]) + Flatten(st.side.chan)
        == (st.hist.read + b[..n]) + b[n..] + Flatten(st.side.chan);
  }

  lemma EofKeeps(st: Stream, q: seq<StreamOut>)
    requires StreamInv(st, q) && Reading(st) && st.side.rxBuf == [] && st.side.chan == [] && !SenderOpen(st)
    ensures StreamInv(st.(side := st.side.(rxEof := true)), q)
  {
    assert Flatten([]) == [];
  }

  /** Dropping the `QuicStream` drops the receiver and whatever the channel still held. */
  function DropSide(st: Stream): Stream {
    st.(side := st.side.(task := Dropped, rxBuf := [], chan := []))
  }

  lemma DropKeeps(st: Stream, q: seq<StreamOut>)
    requires StreamInv(st, q) && Reading(st)
    ensures StreamInv(DropSide(st), q)
  {
  }

  // ---------------------------------------------------------------- actions of the loop

  /** The loop takes the head of the egress channel; it applies it if it still has the stream. */
  function Handle(st: Stream, m: StreamOut): Stream {
    var slot := if st.slot.Live? then Live(Queue(st.slot.entry, m)) else st.slot;
    st.(slot := slot, hist := st.hist.(handled := st.hist.handled + [m]))
  }

  lemma HandleKeeps(st: Stream, q: seq<StreamOut>)
    requires StreamInv(st, q) && q != []
    ensures StreamInv(Handle(st, q[0]), q[1..])
  {
    var h := st.hist.handled;
    var m := q[0];
    assert h + q == (h + [m]) + q[1..];
    PayloadSnoc(h, m);
    QueuedMeansOpen(h, q);
    if st.slot.Live? && m.Data? {
      FlattenSnoc(st.slot.entry.pending, m.payload);
      assert st.send.accepted + Flatten(st.slot.entry.pending) + m.payload
          == st.send.accepted + (Flatten(st.slot.entry.pending) + m.payload);
    }
  }

  /** One visit of `pump_outbound`. */
  function SendPass(st: Stream, plan: seq<SendAnswer>): Stream
    requires st.slot.Live?
  {
    var r := PumpOut(st.slot.entry, st.send, plan);
    st.(slot := Live(r.entry), send := r.send)
  }

  lemma SendPassKeeps(st: Stream, q: seq<StreamOut>, plan: seq<SendAnswer>)
    requires StreamInv(st, q) && st.slot.Live?
    ensures StreamInv(SendPass(st, plan), q)
  {
    PumpOutConserves(st.slot.entry, st.send, plan);
    var r := PumpOut(st.slot.entry, st.send, plan);
    if r.send.fins == 1 && st.send.fins == 0 {
      assert r.send.accepted + Flatten([]) == r.send.accepted;
    }
  }

  /** One iteration of `pump_inbound`; `taken` grows by what `recv_body` returned. */
  function RecvPass(st: Stream, plan: seq<RecvAnswer>): Stream
    requires st.slot.Live?
  {
    var r := VisitIn(st.slot.entry, st.side.chan, st.side.task == Alive, st.recv, plan);
    var got := if r.again then RecvResultOf(st.recv, plan).data else [];
    st.(slot := Live(r.entry), recv := r.recv, side := st.side.(chan := r.chan),
        hist := st.hist.(taken := st.hist.taken + got))
  }

  /** The bytes a visit takes from the library are the bytes it adds to the channel. */
  lemma RecvPassBytes(st: Stream, plan: seq<RecvAnswer>) returns (got: bytes)
    requires st.slot.Live? && ChanOk(st.side.chan)
    ensures var st' := RecvPass(st, plan);
            && ChanOk(st'.side.chan)
            && st'.hist.taken == st.hist.taken + got
            && Flatten(st'.side.chan) == Flatten(st.side.chan) + got
            && got + st'.recv.avail == st.recv.avail
            && (st.side.task != Alive || !SenderOpen(st) ==> st'.side.chan == st.side.chan && got == [])
  {
    var chan := st.side.chan;
    var r := VisitIn(st.slot.entry, chan, st.side.task == Alive, st.recv, plan);
    VisitBytes(st.slot.entry, chan, st.side.task == Alive, st.recv, plan);
    if r.again {
      got := RecvResultOf(st.recv, plan).data;
      FlattenSnoc(chan, got);
      assert st.recv.avail == got + st.recv.avail[|got|..];
    } else {
      got := [];
      assert r.chan == chan && r.recv.avail == st.recv.avail;
    }
  }

  /** No arrived byte is lost on the way from the library to the channel. */
  lemma RecvPassArrived(st: Stream, plan: seq<RecvAnswer>)
    requires st.slot.Live? && ChanOk(st.side.chan)
    ensures RecvPass(st, plan).hist.taken + RecvPass(st, plan).recv.avail == st.hist.taken + st.recv.avail
  {
    var got := RecvPassBytes(st, plan);
    Assoc(st.hist.taken, got, RecvPass(st, plan).recv.avail);
  }

  lemma RecvPassTaken(st: Stream, plan: seq<RecvAnswer>)
    requires RecvInv(st) && st.slot.Live?
    ensures var st' := RecvPass(st, plan);
            && st'.hist.read <= st'.hist.taken
            && ChanOk(st'.side.chan)
            && (st.side.task == Alive ==> st'.hist.taken == st'.hist.read + st'.side.rxBuf + Flatten(st'.side.chan))
            && (st.side.task != Alive || !SenderOpen(st) ==>
                  st'.side.chan == st.side.chan && st'.hist.taken == st.hist.taken)
  {
    var got := RecvPassBytes(st, plan);
    if st.side.task == Alive {
      Assoc(st.hist.read + st.side.rxBuf, Flatten(st.side.chan), got);
    }
  }

  lemma RecvPassKeeps(st: Stream, q: seq<StreamOut>, plan: seq<RecvAnswer>)
    requires StreamInv(st, q) && st.slot.Live?
    ensures StreamInv(RecvPass(st, plan), q)
  {
    RecvPassTaken(st, plan);
    VisitEntry(st.slot.entry, st.side.chan, st.side.task == Alive, st.recv, plan);
    VisitEvents(st.slot.entry, st.side.chan, st.side.task == Alive, st.recv, plan);
  }

  /** `reap_streams` drops the stream. */
  lemma ReapKeeps(st: Stream, q: seq<StreamOut>)
    requires StreamInv(st, q) && st.slot.Live? && Reapable(st.slot.entry)
    ensures StreamInv(st.(slot := Reaped), q)
    ensures q == [] && Settled(st) && st.hist.handled == st.hist.sent
  {
    assert q == [] by {
      if q != [] {
        QueuedMeansOpen(st.hist.handled, q);
      }
    }
    assert st.send.accepted + Flatten([]) == st.send.accepted;
  }

  /** A reset, a refusal or the end of the connection drops the stream. */
  function CutOff(st: Stream): Stream {
    if st.slot.Live? then st.(slot := Cut) else st
  }

  lemma CutKeeps(st: Stream, q: seq<StreamOut>)
    requires StreamInv(st, q)
    ensures StreamInv(CutOff(st), q)
  {
  }

  /** A new stream: registered by the loop, with its bridge running. */
  function Opened(recv: RecvSide): Stream {
    Stream(Live(FRESH_ENTRY), NO_SIDE.(task := Alive), FRESH_SEND, recv, NO_HISTORY)
  }

  lemma OpenedKeeps(st: Stream, q: seq<StreamOut>)
    requires StreamInv(st, q) && st.slot.Unopened?
    ensures q == [] && StreamInv(st.(slot := Live(FRESH_ENTRY), side := NO_SIDE.(task := Alive)), q)
  {
    assert st.hist.sent == [];
  }

  // ---------------------------------------------------------------- actions of the network

  /** Body bytes arrive. */
  function Arrive(st: Stream, d: bytes): Stream {
    var ev := if st.recv.armed then st.recv.events.(data := true) else st.recv.events;
    st.(recv := st.recv.(avail := st.recv.avail + d, armed := false, events := ev))
  }

  /** The peer's fin arrives. */
  function ArriveFin(st: Stream): Stream {
    var ev := if st.recv.avail == [] then st.recv.events.(fin := true) else st.recv.events;
    st.(recv := st.recv.(finArrived := true, events := ev))
  }

  lemma ArriveKeeps(st: Stream, q: seq<StreamOut>, d: bytes)
    requires StreamInv(st, q) && !st.recv.finArrived
    ensures StreamInv(Arrive(st, d), q)
  {
  }

  lemma ArriveFinKeeps(st: Stream, q: seq<StreamOut>)
    requires StreamInv(st, q)
    ensures StreamInv(ArriveFin(st), q)
  {
  }
}
