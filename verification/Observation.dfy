/** What the two ends of one stream can see, and which actions change it. */
module Observation {
  import opened Bytes
  import opened StreamCore
  import opened StreamModel
  import opened EventLoop
  import opened EventLoopProof

  /** Outbound: bytes written by the bridge, its shutdown, bytes and fins handed to the library. */
  datatype Outbound = Outbound(written: bytes, shut: bool, accepted: bytes, fins: nat)

  /** Inbound: bytes and fin that arrived, bytes the bridge read, and whether it saw EOF. */
  datatype Inbound = Inbound(arrived: bytes, finArrived: bool, read: bytes, eof: bool)

  /** `broken`: a transport error, a reset, a refusal or the end of the connection hit the stream. */
  datatype View = View(out: Outbound, inn: Inbound, broken: bool)

  function Observe(st: Stream): View {
    View(
      Outbound(Payload(st.hist.sent), st.side.shutdownSent, st.send.accepted, st.send.fins),
      Inbound(st.hist.taken + st.recv.avail, st.recv.finArrived, st.hist.read, st.side.rxEof),
      st.slot.Cut? || st.send.failed || st.recv.failed)
  }

  /** The stream is seen to be as before, except that it may have broken. */
  predicate Same(v: View, v': View) {
    v'.out == v.out && v'.inn == v.inn && (v.broken ==> v'.broken)
  }

  /** What a pass of `pump_outbound` may change: more bytes or the fin handed over, in order. */
  predicate Handed(v: View, v': View) {
    && v'.inn == v.inn && (v.broken ==> v'.broken)
    && v'.out == v.out.(accepted := v'.out.accepted, fins := v'.out.fins)
    && v.out.accepted <= v'.out.accepted <= v'.out.written
    && v.out.fins <= v'.out.fins <= 1
    && (v.out.fins == 1 ==> v'.out == v.out)
    && (v'.out.fins == 1 ==> v'.out.shut && v'.out.accepted == v'.out.written)
  }

  lemma SameOnNet(st: Stream, n: NetAction)
    requires NetEnabled(st, n)
    ensures var v := Observe(st);
            var v' := Observe(OnNet(st, n));
            match n {
              case NetData(d) => v' == v.(inn := v.inn.(arrived := v.inn.arrived + d)) && !v.inn.finArrived
              case NetFin => v' == v.(inn := v.inn.(finArrived := true)) && !v.inn.finArrived
              case _ => v' == v
            }
  {
    if n.NetData? {
      Assoc(st.hist.taken, st.recv.avail, n.data);
    }
  }

  /** Handling an event may cut the stream, open it or mark it readable, and nothing that is seen. */
  lemma SameButSlot(st: Stream, st': Stream)
    requires st'.hist == st.hist && st'.send == st.send && st'.side.shutdownSent == st.side.shutdownSent
    requires st'.side.rxEof == st.side.rxEof && st'.recv == st.recv.(events := st'.recv.events)
    requires st.slot.Cut? ==> st'.slot.Cut?
    ensures Same(Observe(st), Observe(st'))
  {
  }

  lemma SameOnEvent(st: Stream, q: seq<StreamOut>, e: EventAction)
    requires StreamInv(st, q) && EventEnabled(st, e)
    ensures Same(Observe(st), Observe(OnEvent(st, e)))
  {
    SameButSlot(st, OnEvent(st, e));
  }

  lemma SameOnRecv(st: Stream, q: seq<StreamOut>, answers: seq<RecvAnswer>)
    requires StreamInv(st, q) && st.slot.Live?
    ensures Same(Observe(st), Observe(RecvPass(st, answers)))
  {
    RecvPassArrived(st, answers);
    VisitEvents(st.slot.entry, st.side.chan, st.side.task == Alive, st.recv, answers);
  }

  lemma HandedOnSend(st: Stream, q: seq<StreamOut>, sends: seq<SendAnswer>)
    requires StreamInv(st, q) && st.slot.Live?
    ensures Handed(Observe(st), Observe(SendPass(st, sends)))
  {
    PumpOutConserves(st.slot.entry, st.send, sends);
    var st' := SendPass(st, sends);
    SendPassKeeps(st, q, sends);
    PayloadAppend(st.hist.handled, q);
    PrefixChain(st'.send.accepted, Payload(st.hist.handled), Payload(st.hist.sent));
    if st'.send.fins == 1 {
      FinEndsPayload(st.hist.handled, q);
    }
  }

  lemma OnBridgeStep(st: Stream, q: seq<StreamOut>, b: BridgeAction)
    requires StreamInv(st, q) && !Emits(b)
    requires b.RecvChunk? ==> st.side.chan != []
    requires b.Read? ==> Reading(st) && st.side.rxBuf != []
    requires b.ReadEof? ==> Reading(st) && st.side.rxBuf == [] && st.side.chan == [] && !SenderOpen(st)
    ensures var v := Observe(st);
            var v' := Observe(OnBridge(st, b));
            match b {
              case Read(room) =>
                v'.inn == v.inn.(read := v'.inn.read) && v'.out == v.out && v'.broken == v.broken &&
                v.inn.read <= v'.inn.read <= v.inn.arrived && !v.inn.eof
              case ReadEof =>
                v' == v.(inn := v.inn.(eof := true)) &&
                (v.broken || (v.inn.finArrived && v.inn.read == v.inn.arrived))
              case _ => v' == v
            }
  {
    if b.Read? {
      var n := Min(b.room, |st.side.rxBuf|);
      TakeKeeps(st, q, n);
      PrefixChain(Take(st, n).hist.read, st.hist.taken, st.hist.taken + st.recv.avail);
    }
    if b.ReadEof? {
      assert Flatten([]) == [];
    }
  }

  lemma OnEmit(st: Stream, m: StreamOut)
    requires MayEmit(st, m)
    ensures var v := Observe(st);
            var v' := Observe(Emit(st, m));
            v' == match m {
              case Data(d) => v.(out := v.out.(written := v.out.written + d))
              case Fin => v.(out := v.out.(shut := true))
              case Closed => v
            }
    ensures !m.Closed? ==> !Observe(st).out.shut
  {
    PayloadSnoc(st.hist.sent, m);
  }

  const NOTHING_YET: View := View(Outbound([], false, [], 0), Inbound([], false, [], false), false)

  function ViewOn(s: State, id: Id): View {
    if id in s.streams then Observe(s.streams[id]) else NOTHING_YET
  }

  /** What a bridge step of this very stream does to what is seen of it. */
  predicate BridgeNext(b: BridgeAction, v: View, v': View) {
    match b
    case Write(d) => !v.out.shut && v' == v.(out := v.out.(written := v.out.written + d))
    case Shutdown => v' == v.(out := v.out.(shut := true))
    case Read(_) =>
      v' == v.(inn := v.inn.(read := v'.inn.read)) && v.inn.read <= v'.inn.read <= v.inn.arrived && !v.inn.eof
    case ReadEof =>
      v' == v.(inn := v.inn.(eof := true)) && (v.broken || (v.inn.finArrived && v.inn.read == v.inn.arrived))
    case _ => v' == v
  }

  predicate NetNext(n: NetAction, v: View, v': View) {
    match n
    case NetData(d) => v' == v.(inn := v.inn.(arrived := v.inn.arrived + d)) && !v.inn.finArrived
    case NetFin => v' == v.(inn := v.inn.(finArrived := true)) && !v.inn.finArrived
    case _ => v' == v
  }

  /** What any action of the process does to what is seen of stream `id`. */
  predicate ViewNext(a: Action, id: Id, v: View, v': View) {
    if a.Bridge? && a.id == id then BridgeNext(a.b, v, v')
    else if a.Net? && a.id == id then NetNext(a.n, v, v')
    else Same(v, v') || Handed(v, v')
  }

  lemma ViewPark(s: State, p: ParkAction, id: Id)
    requires Inv(s) && ParkEnabled(s, p)
    ensures Same(ViewOn(s, id), ViewOn(DoPark(s, p), id))
  {
  }

  lemma ViewWake(s: State, w: WakeAction, id: Id)
    requires Inv(s) && WakeEnabled(s, w)
    ensures Same(ViewOn(s, id), ViewOn(DoWake(s, w), id))
  {
  }

  lemma ViewEvent(s: State, i: Id, e: EventAction, id: Id)
    requires Inv(s) && i in s.streams && EventEnabled(s.streams[i], e)
    ensures Same(ViewOn(s, id), ViewOn(Put(s, i, OnEvent(s.streams[i], e)), id))
  {
    SameOnEvent(s.streams[i], Proj(s.egress, i), e);
  }

  lemma ViewNet(s: State, i: Id, n: NetAction, id: Id)
    requires i in s.streams && NetEnabled(s.streams[i], n)
    ensures var v' := ViewOn(Put(s, i, OnNet(s.streams[i], n)), id);
            if i == id then NetNext(n, ViewOn(s, id), v') else v' == ViewOn(s, id)
  {
    SameOnNet(s.streams[i], n);
  }

  lemma ViewPump(s: State, i: Id, u: PumpAction, id: Id)
    requires Inv(s) && Enabled(s, Pump(i, u))
    ensures var v' := ViewOn(DoPump(s, i, u), id);
            Same(ViewOn(s, id), v') || Handed(ViewOn(s, id), v')
  {
    var st := s.streams[i];
    var q := Proj(s.egress, i);
    match u
    case InOne(answers) => SameOnRecv(st, q, answers);
    case OutOne(sends) => HandedOnSend(st, q, sends);
    case ReapOne =>
  }

  lemma ViewEmit(s: State, i: Id, b: BridgeAction, id: Id)
    requires Inv(s) && Enabled(s, Bridge(i, b)) && Emits(b)
    ensures var v' := ViewOn(DoBridge(s, i, b), id);
            if i == id then BridgeNext(b, ViewOn(s, id), v') else v' == ViewOn(s, id)
  {
    OnEmit(s.streams[i], Message(b));
  }

  lemma ViewBridge(s: State, i: Id, b: BridgeAction, id: Id)
    requires Inv(s) && Enabled(s, Bridge(i, b)) && !Emits(b)
    ensures var v' := ViewOn(DoBridge(s, i, b), id);
            if i == id then BridgeNext(b, ViewOn(s, id), v') else v' == ViewOn(s, id)
  {
    OnBridgeStep(s.streams[i], Proj(s.egress, i), b);
  }

  lemma ViewStep(s: State, a: Action, id: Id)
    requires Inv(s) && Enabled(s, a)
    ensures ViewNext(a, id, ViewOn(s, id), ViewOn(Apply(s, a), id))
  {
    match a
    case Park(p) => ViewPark(s, p, id);
    case Wake(w) => ViewWake(s, w, id);
    case NetOpen(i) => assert ViewOn(Put(s, i, REQUESTED), id) == ViewOn(s, id);
    case Net(i, n) => ViewNet(s, i, n, id);
    case PacketDone =>
    case Event(i, e) => ViewEvent(s, i, e, id);
    case Next(t) => assert ViewOn(DoNext(s, t), id) == ViewOn(s, id);
    case Pump(i, u) => ViewPump(s, i, u, id);
    case Bridge(i, b) =>
      if Emits(b) {
        ViewEmit(s, i, b, id);
      } else {
        ViewBridge(s, i, b, id);
      }
  }

  /** Nothing is handed over after the fin, whatever happens next. */
  lemma FinIsLast(s: State, a: Action, id: Id)
    requires Inv(s) && Enabled(s, a)
    ensures ViewOn(s, id).out.fins == 1 ==>
              && ViewOn(Apply(s, a), id).out.fins == 1
              && ViewOn(Apply(s, a), id).out.accepted == ViewOn(s, id).out.accepted
  {
    ViewStep(s, a, id);
  }
}
