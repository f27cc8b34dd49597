/**
 One process's HTTP/3 event loop (`run`/`service` of `src/h3_server.rs`, `session` of
 `src/h3_client.rs`) with all its connections, streams and bridge tasks, as a step system. Every
 bridge may run between any two steps of the loop. The client is the case of one connection.
 */
module EventLoop {
  import opened Bytes
  import opened StreamCore
  import opened StreamModel

  /** Where `service` is for one connection. The pumps hold the ids they have not visited yet and
      visit them in any order, as the hash map's iterator does. */
  datatype Phase = Poll | PumpIn(todo: set<Id>) | PumpOut(todo: set<Id>) | Reap(todo: set<Id>)

  /** Waiting in `select!`; feeding a packet or a timeout to one connection; servicing connection
      `k` with `rest` still to service; or returned. */
  datatype Pc = Parked | Receiving(k: Key) | Turn(rest: set<Key>, k: Key, phase: Phase) | Exited

  /** `failed` holds the connections on which `h3.poll` has returned an error. `permit` is the
      stored permit of the `read_credit` Notify. */
  datatype State = State(
    streams: map<Id, Stream>,
    conns: set<Key>,
    failed: set<Key>,
    egress: seq<Egress>,
    permit: bool,
    pc: Pc)

  /** Between two `select!`s of the loop: connections come and go, the client opens streams, and the
      loop may return. */
  datatype ParkAction = ConnOpen(k: Key) | ConnClose(k: Key) | OpenStream(id: Id, wanted: bool) | Exit

  /** The four branches of `select!`. `k` is the connection that is serviced first. */
  datatype WakeAction = WakePacket(k: Key) | WakeCredit(k: Key) | WakeTimer(k: Key) | WakeEgress

  /** What a packet or a timeout brings for one stream; `NetHeaders` is a response of the server. */
  datatype NetAction = NetData(data: bytes) | NetFin | NetReset | NetCredit | NetHeaders

  /** One event of `poll_h3`. `accept` says that the headers ask for the tunnel, on the server, or that
      they grant it, on the client. */
  datatype EventAction = OnHeaders(accept: bool) | OnData | OnFinished | OnReset

  /** One visit of a pump or of `reap_streams`. */
  datatype PumpAction = InOne(answers: seq<RecvAnswer>) | OutOne(sends: seq<SendAnswer>) | ReapOne

  /** `service` goes on to its next stage, or to the next connection. */
  datatype TurnAction = PollDone | PollError | InDone | OutDone | TurnDone(k: Key)

  /** One step of a bridge task. */
  datatype BridgeAction =
    | Write(data: bytes)
    | Shutdown
    | RecvChunk
    | Notify
    | Read(room: nat)
    | ReadEof
    | DropStream
    | CloseNotice

  datatype Action =
    | Park(p: ParkAction)
    | Wake(w: WakeAction)
    | NetOpen(id: Id)
    | Net(id: Id, n: NetAction)
    | PacketDone
    | Event(id: Id, e: EventAction)
    | Next(t: TurnAction)
    | Pump(id: Id, u: PumpAction)
    | Bridge(id: Id, b: BridgeAction)

  /** The client's one connection has the empty key; the server's keys are connection ids. */
  predicate IsClientKey(k: Key) {
    k == []
  }

  // ---------------------------------------------------------------- which actions are possible

  predicate ParkEnabled(s: State, p: ParkAction) {
    s.pc.Parked? &&
    match p
    case ConnOpen(k) => k !in s.conns && k !in s.failed && (forall id :: id in s.streams ==> id.key != k)
    case ConnClose(k) => k in s.conns
    case OpenStream(id, _) => IsClientKey(id.key) && id.key in s.conns && id !in s.streams
    case Exit => true
  }

  predicate WakeEnabled(s: State, w: WakeAction) {
    s.pc.Parked? &&
    match w
    case WakePacket(k) => k in s.conns
    case WakeCredit(k) => s.permit && (k in s.conns || s.conns == {})
    case WakeTimer(k) => k in s.conns
    case WakeEgress => s.egress != []
  }

  predicate NetEnabled(st: Stream, n: NetAction) {
    match n
    case NetData(d) => d != [] && !st.recv.finArrived
    case NetFin => !st.recv.finArrived
    case NetReset => true
    case NetCredit => true
    case NetHeaders => !st.slot.Unopened?
  }

  /** `h3.poll` reports the headers that wait on a stream before its other events. */
  predicate EventEnabled(st: Stream, e: EventAction) {
    var ev := st.recv.events;
    match e
    case OnHeaders(_) => ev.headers
    case OnData => ev.data && !ev.headers
    case OnFinished => ev.fin && !ev.headers
    case OnReset => ev.reset && !ev.headers
  }

  predicate PumpEnabled(phase: Phase, id: Id, u: PumpAction) {
    match u
    case InOne(_) => phase.PumpIn? && id in phase.todo
    case OutOne(_) => phase.PumpOut? && id in phase.todo
    case ReapOne => phase.Reap? && id in phase.todo
  }

  predicate Quiet(s: State, k: Key) {
    forall id :: id in s.streams && id.key == k ==> s.streams[id].recv.events == NO_EVENTS
  }

  predicate TurnEnabled(s: State, t: TurnAction) {
    s.pc.Turn? &&
    match t
    case PollDone => s.pc.phase.Poll? && Quiet(s, s.pc.k)
    case PollError => s.pc.phase.Poll?
    case InDone => s.pc.phase == PumpIn({})
    case OutDone => s.pc.phase == PumpOut({})
    case TurnDone(k) => s.pc.phase == Reap({}) && (k in s.pc.rest || s.pc.rest == {})
  }

  /** The message a bridge step puts into the egress channel. */
  predicate Emits(b: BridgeAction) {
    b.Write? || b.Shutdown? || b.CloseNotice?
  }

  function Message(b: BridgeAction): StreamOut
    requires Emits(b)
  {
    match b
    case Write(d) => Data(d)
    case Shutdown => Fin
    case CloseNotice => Closed
  }

  /** A sender gets a slot of the egress channel only while the loop holds its receiver. */
  predicate HasRoom(s: State) {
    !s.pc.Exited? && |s.egress| < EGRESS_CHANNEL_CAP
  }

  /** A write fails once the loop is gone; a shutdown and a close notice then do nothing. */
  predicate BridgeEnabled(s: State, st: Stream, b: BridgeAction) {
    match b
    case Write(d) => MayEmit(st, Data(d)) && HasRoom(s)
    case Shutdown => MayEmit(st, Fin) && (s.pc.Exited? || HasRoom(s))
    case CloseNotice => MayEmit(st, Closed) && (s.pc.Exited? || HasRoom(s))
    case RecvChunk => Reading(st) && st.side.rxBuf == [] && !st.side.rxEof && st.side.chan != []
    case Notify => st.side.credit
    case Read(_) => Reading(st) && st.side.rxBuf != []
    case ReadEof => Reading(st) && st.side.rxBuf == [] && st.side.chan == [] && !SenderOpen(st)
    case DropStream => Reading(st)
  }

  predicate Enabled(s: State, a: Action) {
    match a
    case Park(p) => ParkEnabled(s, p)
    case Wake(w) => WakeEnabled(s, w)
    case NetOpen(id) => !IsClientKey(id.key) && s.pc == Receiving(id.key) && id !in s.streams
    case Net(id, n) =>
      s.pc == Receiving(id.key) && id in s.streams && NetEnabled(s.streams[id], n) &&
      (n.NetHeaders? ==> IsClientKey(id.key))
    case PacketDone => s.pc.Receiving?
    case Event(id, e) =>
      s.pc.Turn? && s.pc.k == id.key && s.pc.phase.Poll? && id in s.streams && EventEnabled(s.streams[id], e)
    case Next(t) => TurnEnabled(s, t)
    case Pump(id, u) =>
      s.pc.Turn? && s.pc.k == id.key && id in s.streams && s.streams[id].slot.Live? && PumpEnabled(s.pc.phase, id, u)
    case Bridge(id, b) => id in s.streams && BridgeEnabled(s, s.streams[id], b)
  }

  // ---------------------------------------------------------------- what they do

  function Put(s: State, id: Id, st: Stream): State {
    s.(streams := s.streams[id := st])
  }

  function CutAll(streams: map<Id, Stream>, k: Key): map<Id, Stream> {
    map id | id in streams :: if id.key == k then CutOff(streams[id]) else streams[id]
  }

  /** A stream whose requester is gone is taken back at once. */
  const WITHDRAWN: Stream := Stream(Cut, NO_SIDE, FRESH_SEND, FRESH_RECV, NO_HISTORY)

  function DoPark(s: State, p: ParkAction): State {
    match p
    case ConnOpen(k) => s.(conns := s.conns + {k})
    case ConnClose(k) => s.(conns := s.conns - {k}, streams := CutAll(s.streams, k))
    case OpenStream(id, wanted) => Put(s, id, if wanted then Opened(FRESH_RECV) else WITHDRAWN)
    case Exit => s.(pc := Exited, conns := {}, streams := map id | id in s.streams :: CutOff(s.streams[id]))
  }

  /** Service every connection, starting with `k`. */
  function ServeAll(s: State, k: Key): Pc {
    if k in s.conns then Turn(s.conns - {k}, k, Poll) else Parked
  }

  /** `egress_rx.recv()`: apply the message if the stream is still there, then service its
      connection if that is still there. */
  function Dequeue(s: State): State
    requires s.egress != []
  {
    var m := s.egress[0];
    var streams := if m.id in s.streams then s.streams[m.id := Handle(s.streams[m.id], m.out)] else s.streams;
    s.(streams := streams, egress := s.egress[1..],
       pc := if m.id.key in s.conns then Turn({}, m.id.key, Poll) else Parked)
  }

  function DoWake(s: State, w: WakeAction): State
    requires WakeEnabled(s, w)
  {
    match w
    case WakePacket(k) => s.(pc := Receiving(k))
    case WakeCredit(k) => s.(pc := ServeAll(s, k), permit := false)
    case WakeTimer(k) => s.(pc := ServeAll(s, k))
    case WakeEgress => Dequeue(s)
  }

  function SetEvents(st: Stream, ev: Events): Stream {
    st.(recv := st.recv.(events := ev))
  }

  /** A request stream the peer has opened: its headers are waiting. */
  const REQUESTED: Stream :=
    Stream(Unopened, NO_SIDE, FRESH_SEND, FRESH_RECV.(events := NO_EVENTS.(headers := true)), NO_HISTORY)

  function OnNet(st: Stream, n: NetAction): Stream {
    match n
    case NetData(d) => Arrive(st, d)
    case NetFin => ArriveFin(st)
    case NetReset => SetEvents(st, st.recv.events.(reset := true))
    case NetCredit => st.(send := st.send.(blocked := false))
    case NetHeaders => SetEvents(st, st.recv.events.(headers := true))
  }

  function MarkReadable(st: Stream): Stream {
    if st.slot.Live? then st.(slot := Live(st.slot.entry.(readable := true))) else st
  }

  /** `handle_headers` on the tunnel path. */
  function Accept(st: Stream): Stream {
    st.(slot := Live(FRESH_ENTRY), side := NO_SIDE.(task := Alive))
  }

  function OnEvent(st: Stream, e: EventAction): Stream {
    var ev := st.recv.events;
    match e
    case OnHeaders(accept) =>
      var st' := SetEvents(st, ev.(headers := false));
      if st.slot.Unopened? then if accept then Accept(st') else st'
      else if accept then st' else CutOff(st')
    case OnData => MarkReadable(SetEvents(st, ev.(data := false)))
    case OnFinished => MarkReadable(SetEvents(st, ev.(fin := false)))
    case OnReset => CutOff(SetEvents(st, ev.(reset := false)))
  }

  function Registered(s: State, k: Key): set<Id> {
    set id | id in s.streams && id.key == k && s.streams[id].slot.Live?
  }

  function DoNext(s: State, t: TurnAction): State
    requires TurnEnabled(s, t)
  {
    var all := Registered(s, s.pc.k);
    match t
    case PollDone => s.(pc := s.pc.(phase := PumpIn(all)))
    case PollError => s.(pc := s.pc.(phase := PumpIn(all)), failed := s.failed + {s.pc.k})
    case InDone => s.(pc := s.pc.(phase := PumpOut(all)))
    case OutDone => s.(pc := s.pc.(phase := Reap(all)))
    case TurnDone(k) => s.(pc := if k in s.pc.rest then Turn(s.pc.rest - {k}, k, Poll) else Parked)
  }

  function OnPump(st: Stream, u: PumpAction): Stream
    requires st.slot.Live?
  {
    match u
    case InOne(answers) => RecvPass(st, answers)
    case OutOne(sends) => SendPass(st, sends)
    case ReapOne => if Reapable(st.slot.entry) then st.(slot := StreamModel.Reaped) else st
  }

  /** The inner loop of `pump_inbound` goes round on the same stream. */
  predicate Again(st: Stream, u: PumpAction)
    requires st.slot.Live?
  {
    u.InOne? && VisitIn(st.slot.entry, st.side.chan, st.side.task == Alive, st.recv, u.answers).again
  }

  function Without(phase: Phase, id: Id): Phase {
    match phase
    case Poll => Poll
    case PumpIn(todo) => PumpIn(todo - {id})
    case PumpOut(todo) => PumpOut(todo - {id})
    case Reap(todo) => Reap(todo - {id})
  }

  /** The pump is done with `id` for this pass unless its inner loop goes round. */
  function Visit(s: State, id: Id, st: Stream, again: bool): State
    requires s.pc.Turn?
  {
    Put(s, id, st).(pc := if again then s.pc else s.pc.(phase := Without(s.pc.phase, id)))
  }

  function DoPump(s: State, id: Id, u: PumpAction): State
    requires Enabled(s, Pump(id, u))
  {
    Visit(s, id, OnPump(s.streams[id], u), Again(s.streams[id], u))
  }

  function OnBridge(st: Stream, b: BridgeAction): Stream
    requires b.RecvChunk? ==> st.side.chan != []
  {
    match b
    case Write(d) => Emit(st, Data(d))
    case Shutdown => Emit(st, Fin)
    case CloseNotice => Emit(st, Closed)
    case RecvChunk => Pop(st)
    case Notify => st.(side := st.side.(credit := false))
    case Read(room) => Take(st, Min(room, |st.side.rxBuf|))
    case ReadEof => st.(side := st.side.(rxEof := true))
    case DropStream => DropSide(st)
  }

  /** A bridge step that finds the loop gone. */
  function Unheard(st: Stream, b: BridgeAction): Stream {
    if b.Shutdown? then st.(side := st.side.(shutdownSent := true)) else st.(side := st.side.(task := StreamModel.Ended))
  }

  function DoBridge(s: State, id: Id, b: BridgeAction): State
    requires Enabled(s, Bridge(id, b))
  {
    var st := s.streams[id];
    if Emits(b) then
      if s.pc.Exited? then Put(s, id, Unheard(st, b))
      else Put(s, id, OnBridge(st, b)).(egress := s.egress + [Egress(id, Message(b))])
    else
      Put(s, id, OnBridge(st, b)).(permit := s.permit || b.Notify?)
  }

  function Apply(s: State, a: Action): State
    requires Enabled(s, a)
  {
    match a
    case Park(p) => DoPark(s, p)
    case Wake(w) => DoWake(s, w)
    case NetOpen(id) => Put(s, id, REQUESTED)
    case Net(id, n) => Put(s, id, OnNet(s.streams[id], n))
    case PacketDone => s.(pc := Turn({}, s.pc.k, Poll))
    case Event(id, e) => Put(s, id, OnEvent(s.streams[id], e))
    case Next(t) => DoNext(s, t)
    case Pump(id, u) => DoPump(s, id, u)
    case Bridge(id, b) => DoBridge(s, id, b)
  }

  /** The messages of one stream in the egress channel, in order. */
  function Proj(q: seq<Egress>, id: Id): seq<StreamOut> {
    if q == [] then []
    else if q[0].id == id then [q[0].out] + Proj(q[1..], id)
    else Proj(q[1..], id)
  }

  lemma {:induction false} ProjSnoc(q: seq<Egress>, m: Egress, id: Id)
    ensures Proj(q + [m], id) == if m.id == id then Proj(q, id) + [m.out] else Proj(q, id)
  {
    if q == [] {
      assert (q + [m])[1..] == [];
    } else {
      assert (q + [m])[1..] == q[1..] + [m];
      ProjSnoc(q[1..], m, id);
    }
  }

  lemma {:induction false} ProjNone(q: seq<Egress>, id: Id)
    requires forall j :: 0 <= j < |q| ==> q[j].id != id
    ensures Proj(q, id) == []
  {
    if q != [] {
      ProjNone(q[1..], id);
    }
  }

  // ---------------------------------------------------------------- wake-ups

  /** The loop will drain the HTTP/3 events of connection `k` before it parks. */
  predicate DuePoll(pc: Pc, k: Key) {
    match pc
    case Receiving(k') => k == k'
    case Turn(rest, k', phase) => k in rest || (k == k' && phase.Poll?)
    case _ => false
  }

  predicate DueIn(pc: Pc, id: Id) {
    DuePoll(pc, id.key) || (pc.Turn? && pc.k == id.key && pc.phase.PumpIn? && id in pc.phase.todo)
  }

  predicate DueOut(pc: Pc, id: Id) {
    || DuePoll(pc, id.key)
    || (pc.Turn? && pc.k == id.key && (pc.phase.PumpIn? || (pc.phase.PumpOut? && id in pc.phase.todo)))
  }

  predicate DueReap(pc: Pc, id: Id) {
    || DuePoll(pc, id.key)
    || (pc.Turn? && pc.k == id.key &&
          (pc.phase.PumpIn? || pc.phase.PumpOut? || (pc.phase.Reap? && id in pc.phase.todo)))
  }

  /** Body bytes or an end that the bridge has not been given yet, or a Data event not re-armed. */
  predicate Unread(i: RecvSide) {
    i.avail != [] || i.finArrived || !i.armed
  }

  predicate EventQueued(i: RecvSide) {
    i.events.data || i.events.fin
  }

  /** Something will make the loop read the stream again. */
  predicate Noticed(s: State, id: Id, st: Stream) {
    SenderOpen(st) && Unread(st.recv) ==>
      st.slot.entry.readable || (EventQueued(st.recv) && (DuePoll(s.pc, id.key) || id.key in s.failed))
  }

  /** A readable stream the loop is not about to visit waits behind a full channel or has its retry
      signalled. */
  predicate Retried(s: State, id: Id, st: Stream) {
    SenderOpen(st) && st.side.task == Alive && st.slot.entry.readable && !DueIn(s.pc, id) ==>
      |st.side.chan| == INBOUND_CHANNEL_CAP || s.permit || st.side.credit
  }

  /** A stream with something to send that the loop is not about to visit is blocked by flow control. */
  predicate Flushed(s: State, id: Id, st: Stream) {
    st.slot.Live? && (st.slot.entry.pending != [] || FinOwed(st.slot.entry)) && !DueOut(s.pc, id) ==> st.send.blocked
  }

  /** A stream that may be dropped is about to be. */
  predicate Collected(s: State, id: Id, st: Stream) {
    st.slot.Live? && Reapable(st.slot.entry) ==> DueReap(s.pc, id)
  }

  ghost predicate WakeInv(s: State, id: Id, st: Stream) {
    && (st.slot.Live? ==> id.key in s.conns)
    && (st.slot.Unopened? && st.recv.events.headers && Unread(st.recv) ==> EventQueued(st.recv))
    && Noticed(s, id, st)
    && Retried(s, id, st)
    && Flushed(s, id, st)
    && Collected(s, id, st)
  }

  /** The connections named by the program counter are live. */
  predicate PcOk(s: State) {
    match s.pc
    case Receiving(k) => k in s.conns
    case Turn(rest, k, _) => k in s.conns && rest <= s.conns
    case _ => true
  }

  ghost predicate Inv(s: State) {
    && PcOk(s)
    && |s.egress| <= EGRESS_CHANNEL_CAP
    && (forall j :: 0 <= j < |s.egress| ==> s.egress[j].id in s.streams)
    && (forall id :: id in s.streams ==> StreamInv(s.streams[id], Proj(s.egress, id)))
    && (forall id :: id in s.streams ==> WakeInv(s, id, s.streams[id]))
  }
}
