/** Every action of the event loop, the bridges and the network keeps the invariant of `EventLoop`. */
module EventLoopProof {
  import opened Bytes
  import opened StreamCore
  import opened StreamModel
  import opened EventLoop

  /** In `s'` the loop is no further from visiting stream `j` than in `s`, and the egress channel
      holds the same messages of it. */
  ghost predicate NoWorse(s: State, s': State, j: Id) {
    && (DuePoll(s.pc, j.key) ==> DuePoll(s'.pc, j.key))
    && (DueIn(s.pc, j) ==> DueIn(s'.pc, j))
    && (DueOut(s.pc, j) ==> DueOut(s'.pc, j))
    && (DueReap(s.pc, j) ==> DueReap(s'.pc, j))
    && Proj(s'.egress, j) == Proj(s.egress, j)
  }

  /** An action on one stream keeps the invariant if it keeps it for that stream. */
  lemma FrameKeeps(s: State, s': State, id: Id, st: Stream)
    requires Inv(s) && PcOk(s')
    requires s'.streams == s.streams[id := st] && s'.conns == s.conns && s.failed <= s'.failed
    requires s.permit ==> s'.permit
    requires |s'.egress| <= EGRESS_CHANNEL_CAP
    requires forall j :: 0 <= j < |s'.egress| ==> s'.egress[j].id in s'.streams
    requires forall j :: j in s.streams && j != id ==> NoWorse(s, s', j)
    requires StreamInv(st, Proj(s'.egress, id)) && WakeInv(s', id, st)
    ensures Inv(s')
  {
    forall j | j in s'.streams
      ensures StreamInv(s'.streams[j], Proj(s'.egress, j)) && WakeInv(s', j, s'.streams[j])
    {
      if j != id {
        assert NoWorse(s, s', j);
      }
    }
  }

  lemma PutKeeps(s: State, id: Id, st: Stream)
    requires Inv(s) && id in s.streams
    requires StreamInv(st, Proj(s.egress, id)) && WakeInv(Put(s, id, st), id, st)
    ensures Inv(Put(s, id, st))
  {
    FrameKeeps(s, Put(s, id, st), id, st);
  }

  /** A move of the program counter keeps the invariant if no stream loses what it waits for. */
  lemma MoveKeeps(s: State, s': State)
    requires Inv(s) && PcOk(s')
    requires s'.streams == s.streams && s'.egress == s.egress
    requires forall j :: j in s.streams ==> WakeInv(s', j, s.streams[j])
    ensures Inv(s')
  {
  }

  /** Network actions. */
  lemma NetStream(st: Stream, q: seq<StreamOut>, n: NetAction)
    requires StreamInv(st, q) && NetEnabled(st, n)
    ensures StreamInv(OnNet(st, n), q)
  {
    match n
    case NetData(d) => ArriveKeeps(st, q, d);
    case NetFin => ArriveFinKeeps(st, q);
    case NetReset =>
    case NetCredit =>
    case NetHeaders =>
  }

  lemma NetKeeps(s: State, id: Id, n: NetAction)
    requires Inv(s) && id in s.streams && s.pc == Receiving(id.key) && NetEnabled(s.streams[id], n)
    ensures Inv(Put(s, id, OnNet(s.streams[id], n)))
  {
    var st' := OnNet(s.streams[id], n);
    NetStream(s.streams[id], Proj(s.egress, id), n);
    assert WakeInv(s, id, s.streams[id]);
    assert WakeInv(Put(s, id, st'), id, st');
    PutKeeps(s, id, st');
  }

  /** HTTP/3 events. */
  lemma HeadersStream(st: Stream, q: seq<StreamOut>, accept: bool)
    requires StreamInv(st, q)
    ensures StreamInv(OnEvent(st, OnHeaders(accept)), q)
  {
    if st.slot.Unopened? && accept {
      OpenedKeeps(st, q);
    }
  }

  lemma EventStream(st: Stream, q: seq<StreamOut>, e: EventAction)
    requires StreamInv(st, q) && EventEnabled(st, e)
    ensures StreamInv(OnEvent(st, e), q)
  {
    if e.OnHeaders? {
      HeadersStream(st, q, e.accept);
    }
  }

  lemma EventWake(s: State, id: Id, e: EventAction)
    requires Inv(s) && Enabled(s, Event(id, e))
    ensures WakeInv(Put(s, id, OnEvent(s.streams[id], e)), id, OnEvent(s.streams[id], e))
  {
    assert WakeInv(s, id, s.streams[id]);
  }

  lemma EventKeeps(s: State, id: Id, e: EventAction)
    requires Inv(s) && Enabled(s, Event(id, e))
    ensures Inv(Put(s, id, OnEvent(s.streams[id], e)))
  {
    var st' := OnEvent(s.streams[id], e);
    EventStream(s.streams[id], Proj(s.egress, id), e);
    EventWake(s, id, e);
    PutKeeps(s, id, st');
  }

  /** A stream that did not exist. */
  lemma NewStream(st: Stream)
    requires st == Opened(FRESH_RECV) || st == WITHDRAWN || st == REQUESTED
    ensures StreamInv(st, [])
  {
    assert Flatten([]) == [] && Payload([]) == [];
  }

  lemma NewKeeps(s: State, id: Id, st: Stream)
    requires Inv(s) && id !in s.streams && id.key in s.conns
    requires (s.pc.Parked? && (st == Opened(FRESH_RECV) || st == WITHDRAWN)) || (s.pc == Receiving(id.key) && st == REQUESTED)
    ensures Inv(Put(s, id, st))
  {
    ProjNone(s.egress, id);
    NewStream(st);
    assert WakeInv(Put(s, id, st), id, st);
    FrameKeeps(s, Put(s, id, st), id, st);
  }

  /** Visits of the pumps. */
  lemma VisitNoWorse(s: State, id: Id, st: Stream, again: bool)
    requires s.pc.Turn? && !s.pc.phase.Poll?
    ensures forall j :: j in s.streams && j != id ==> NoWorse(s, Visit(s, id, st, again), j)
  {
  }

  lemma VisitKeeps(s: State, id: Id, st: Stream, again: bool)
    requires Inv(s) && id in s.streams && s.pc.Turn? && s.pc.k == id.key && !s.pc.phase.Poll?
    requires StreamInv(st, Proj(s.egress, id)) && WakeInv(Visit(s, id, st, again), id, st)
    ensures Inv(Visit(s, id, st, again))
  {
    VisitNoWorse(s, id, st, again);
    FrameKeeps(s, Visit(s, id, st, again), id, st);
  }

  lemma InOneWake(s: State, id: Id, answers: seq<RecvAnswer>)
    requires Inv(s) && Enabled(s, Pump(id, InOne(answers)))
    ensures var st := s.streams[id];
            var st' := RecvPass(st, answers);
            WakeInv(Visit(s, id, st', Again(st, InOne(answers))), id, st')
  {
    var st := s.streams[id];
    assert WakeInv(s, id, st) && RecvInv(st);
    RecvPassTaken(st, answers);
    VisitEntry(st.slot.entry, st.side.chan, st.side.task == Alive, st.recv, answers);
    VisitEvents(st.slot.entry, st.side.chan, st.side.task == Alive, st.recv, answers);
  }

  lemma OutOneWake(s: State, id: Id, sends: seq<SendAnswer>)
    requires Inv(s) && Enabled(s, Pump(id, OutOne(sends)))
    ensures var st' := SendPass(s.streams[id], sends);
            WakeInv(Visit(s, id, st', false), id, st')
  {
    var st := s.streams[id];
    assert WakeInv(s, id, st);
    PumpOutConserves(st.slot.entry, st.send, sends);
  }

  lemma ReapOneWake(s: State, id: Id)
    requires Inv(s) && Enabled(s, Pump(id, ReapOne))
    ensures var st' := OnPump(s.streams[id], ReapOne);
            WakeInv(Visit(s, id, st', false), id, st')
  {
    assert WakeInv(s, id, s.streams[id]);
  }

  /** One iteration of `pump_inbound`. */
  lemma InOneKeeps(s: State, id: Id, answers: seq<RecvAnswer>)
    requires Inv(s) && Enabled(s, Pump(id, InOne(answers)))
    ensures Inv(DoPump(s, id, InOne(answers)))
  {
    RecvPassKeeps(s.streams[id], Proj(s.egress, id), answers);
    InOneWake(s, id, answers);
    VisitKeeps(s, id, RecvPass(s.streams[id], answers), Again(s.streams[id], InOne(answers)));
  }

  /** One visit of `pump_outbound`. */
  lemma OutOneKeeps(s: State, id: Id, sends: seq<SendAnswer>)
    requires Inv(s) && Enabled(s, Pump(id, OutOne(sends)))
    ensures Inv(DoPump(s, id, OutOne(sends)))
  {
    SendPassKeeps(s.streams[id], Proj(s.egress, id), sends);
    OutOneWake(s, id, sends);
    VisitKeeps(s, id, SendPass(s.streams[id], sends), false);
  }

  /** One visit of `reap_streams`. */
  lemma ReapOneKeeps(s: State, id: Id)
    requires Inv(s) && Enabled(s, Pump(id, ReapOne))
    ensures Inv(DoPump(s, id, ReapOne))
  {
    if Reapable(s.streams[id].slot.entry) {
      ReapKeeps(s.streams[id], Proj(s.egress, id));
    }
    ReapOneWake(s, id);
    VisitKeeps(s, id, OnPump(s.streams[id], ReapOne), false);
  }

  /** Stages of `service`. */
  lemma PacketDoneKeeps(s: State)
    requires Inv(s) && s.pc.Receiving?
    ensures Inv(s.(pc := Turn({}, s.pc.k, Poll)))
  {
    var s' := s.(pc := Turn({}, s.pc.k, Poll));
    forall j | j in s.streams
      ensures WakeInv(s', j, s.streams[j])
    {
      assert WakeInv(s, j, s.streams[j]);
    }
    MoveKeeps(s, s');
  }

  lemma NextKeeps(s: State, t: TurnAction)
    requires Inv(s) && TurnEnabled(s, t)
    ensures Inv(DoNext(s, t))
  {
    var s' := DoNext(s, t);
    forall j | j in s.streams
      ensures WakeInv(s', j, s.streams[j])
    {
      assert WakeInv(s, j, s.streams[j]);
    }
    MoveKeeps(s, s');
  }

  /** Bridge steps. */
  lemma BridgeStream(st: Stream, q: seq<StreamOut>, b: BridgeAction)
    requires StreamInv(st, q) && !Emits(b)
    requires b.RecvChunk? ==> Reading(st) && st.side.rxBuf == [] && st.side.chan != []
    requires b.Read? || b.DropStream? ==> Reading(st)
    requires b.ReadEof? ==> Reading(st) && st.side.rxBuf == [] && st.side.chan == [] && !SenderOpen(st)
    ensures StreamInv(OnBridge(st, b), q)
  {
    match b
    case RecvChunk => PopKeeps(st, q);
    case Notify =>
    case Read(room) => TakeKeeps(st, q, Min(room, |st.side.rxBuf|));
    case ReadEof => EofKeeps(st, q);
    case DropStream => DropKeeps(st, q);
    case _ => assert false;
  }

  lemma BridgeKeeps(s: State, id: Id, b: BridgeAction)
    requires Inv(s) && Enabled(s, Bridge(id, b)) && !Emits(b)
    ensures Inv(DoBridge(s, id, b))
  {
    var s' := DoBridge(s, id, b);
    BridgeStream(s.streams[id], Proj(s.egress, id), b);
    FrameKeeps(s, s', id, s'.streams[id]);
  }

  lemma ProjSent(s: State, m: Egress)
    ensures forall j :: Proj(s.egress + [m], j) == if j == m.id then Proj(s.egress, j) + [m.out] else Proj(s.egress, j)
  {
    forall j
      ensures Proj(s.egress + [m], j) == if j == m.id then Proj(s.egress, j) + [m.out] else Proj(s.egress, j)
    {
      ProjSnoc(s.egress, m, j);
    }
  }

  lemma EmitWake(s: State, s': State, id: Id, m: StreamOut)
    requires Inv(s) && id in s.streams && MayEmit(s.streams[id], m)
    requires s'.pc == s.pc && s'.failed == s.failed && s'.conns == s.conns && s'.permit == s.permit
    ensures WakeInv(s', id, Emit(s.streams[id], m))
  {
    assert WakeInv(s, id, s.streams[id]);
  }

  lemma SendKeeps(s: State, id: Id, m: StreamOut)
    requires Inv(s) && id in s.streams && MayEmit(s.streams[id], m) && HasRoom(s)
    ensures Inv(Put(s, id, Emit(s.streams[id], m)).(egress := s.egress + [Egress(id, m)]))
  {
    var st' := Emit(s.streams[id], m);
    var s' := Put(s, id, st').(egress := s.egress + [Egress(id, m)]);
    EmitKeeps(s.streams[id], Proj(s.egress, id), m);
    ProjSent(s, Egress(id, m));
    EmitWake(s, s', id, m);
    FrameKeeps(s, s', id, st');
  }

  lemma EmitStepKeeps(s: State, id: Id, b: BridgeAction)
    requires Inv(s) && Enabled(s, Bridge(id, b)) && Emits(b) && !s.pc.Exited?
    ensures Inv(DoBridge(s, id, b))
  {
    SendKeeps(s, id, Message(b));
  }

  lemma UnheardStream(st: Stream, q: seq<StreamOut>, b: BridgeAction)
    requires StreamInv(st, q) && Emits(b) && !b.Write? && MayEmit(st, Message(b))
    ensures StreamInv(Unheard(st, b), q)
  {
  }

  lemma UnheardKeeps(s: State, id: Id, b: BridgeAction)
    requires Inv(s) && Enabled(s, Bridge(id, b)) && Emits(b) && s.pc.Exited?
    ensures Inv(DoBridge(s, id, b))
  {
    var st' := Unheard(s.streams[id], b);
    UnheardStream(s.streams[id], Proj(s.egress, id), b);
    assert WakeInv(s, id, s.streams[id]) && WakeInv(Put(s, id, st'), id, st');
    PutKeeps(s, id, st');
  }

  /** The branches of `select!`. */
  lemma HandleWake(s: State, s': State, id: Id, m: StreamOut)
    requires Inv(s) && id in s.streams
    requires s'.conns == s.conns && (id.key in s.conns ==> s'.pc == Turn({}, id.key, Poll))
    ensures WakeInv(s', id, Handle(s.streams[id], m))
  {
    assert WakeInv(s, id, s.streams[id]);
  }

  lemma DequeueKeeps(s: State)
    requires Inv(s) && s.pc.Parked? && s.egress != []
    ensures Inv(Dequeue(s))
  {
    var m := s.egress[0];
    var s' := Dequeue(s);
    HandleKeeps(s.streams[m.id], Proj(s.egress, m.id));
    HandleWake(s, s', m.id, m.out);
    FrameKeeps(s, s', m.id, Handle(s.streams[m.id], m.out));
  }

  lemma WakeKeeps(s: State, w: WakeAction)
    requires Inv(s) && WakeEnabled(s, w)
    ensures Inv(DoWake(s, w))
  {
    if w.WakeEgress? {
      DequeueKeeps(s);
    } else {
      var s' := DoWake(s, w);
      forall j | j in s.streams
        ensures WakeInv(s', j, s.streams[j])
      {
        assert WakeInv(s, j, s.streams[j]);
      }
      MoveKeeps(s, s');
    }
  }

  /** The end of connections cuts streams and touches nothing else. */
  lemma CutKeepsAll(s: State, s': State)
    requires Inv(s) && PcOk(s') && s.pc.Parked? && (s'.pc.Parked? || s'.pc.Exited?)
    requires s'.egress == s.egress && s'.permit == s.permit && s'.failed == s.failed
    requires s'.streams.Keys == s.streams.Keys
    requires forall j :: j in s.streams ==>
        s'.streams[j] == CutOff(s.streams[j]) || (s'.streams[j] == s.streams[j] && j.key in s'.conns)
    ensures Inv(s')
  {
    forall j | j in s'.streams
      ensures StreamInv(s'.streams[j], Proj(s'.egress, j)) && WakeInv(s', j, s'.streams[j])
    {
      CutKeeps(s.streams[j], Proj(s.egress, j));
    }
  }

  lemma ParkKeeps(s: State, p: ParkAction)
    requires Inv(s) && ParkEnabled(s, p)
    ensures Inv(DoPark(s, p))
  {
    match p
    case ConnOpen(k) => MoveKeeps(s, DoPark(s, p));
    case ConnClose(k) => CutKeepsAll(s, DoPark(s, p));
    case OpenStream(id, wanted) => NewKeeps(s, id, if wanted then Opened(FRESH_RECV) else WITHDRAWN);
    case Exit => CutKeepsAll(s, DoPark(s, p));
  }

  /** Every action keeps the invariant. */
  lemma StepKeepsInv(s: State, a: Action)
    requires Inv(s) && Enabled(s, a)
    ensures Inv(Apply(s, a))
  {
    match a
    case Park(p) => ParkKeeps(s, p);
    case Wake(w) => WakeKeeps(s, w);
    case NetOpen(id) => NewKeeps(s, id, REQUESTED);
    case Net(id, n) => NetKeeps(s, id, n);
    case PacketDone => PacketDoneKeeps(s);
    case Event(id, e) => EventKeeps(s, id, e);
    case Next(t) => NextKeeps(s, t);
    case Pump(id, u) =>
      match u {
        case InOne(answers) => InOneKeeps(s, id, answers);
        case OutOne(sends) => OutOneKeeps(s, id, sends);
        case ReapOne => ReapOneKeeps(s, id);
      }
    case Bridge(id, b) =>
      if !Emits(b) {
        BridgeKeeps(s, id, b);
      } else if s.pc.Exited? {
        UnheardKeeps(s, id, b);
      } else {
        EmitStepKeeps(s, id, b);
      }
  }
}
