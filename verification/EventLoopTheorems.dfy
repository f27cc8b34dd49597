/** What holds after every run of one event loop: conservation both ways, fin order, safe reaping,
    honest EOF, and no lost wake-up. */
module EventLoopTheorems {
  import opened Bytes
  import opened StreamCore
  import opened StreamModel
  import opened EventLoop
  import opened EventLoopProof

  /** A loop that has just started: no streams yet. The client starts with its one connection. */
  predicate Initial(s: State) {
    s.streams == map[] && s.egress == [] && !s.permit && s.pc == Parked && s.failed == {}
  }

  /** The actions are possible one after the other. */
  predicate Possible(s: State, run: seq<Action>)
    decreases |run|
  {
    run == [] || (Enabled(s, run[0]) && Possible(Apply(s, run[0]), run[1..]))
  }

  function After(s: State, run: seq<Action>): State
    requires Possible(s, run)
    decreases |run|
  {
    if run == [] then s else After(Apply(s, run[0]), run[1..])
  }

  lemma {:induction false} RunKeepsInv(s: State, run: seq<Action>)
    requires Inv(s) && Possible(s, run)
    ensures Inv(After(s, run))
    decreases |run|
  {
    if run != [] {
      StepKeepsInv(s, run[0]);
      RunKeepsInv(Apply(s, run[0]), run[1..]);
    }
  }

  lemma InitialInv(s: State)
    requires Initial(s)
    ensures Inv(s)
  {
  }

  /** The bytes written and not yet with the library are exactly the pending chunks followed by what
      the shared channel holds of this stream, in order and with nothing of another stream. */
  lemma OutboundConservation(s: State, run: seq<Action>, id: Id)
    requires Initial(s) && Possible(s, run)
    requires id in After(s, run).streams
    ensures var st := After(s, run).streams[id];
            && st.send.accepted <= Payload(st.hist.sent)
            && (st.slot.Live? && !st.send.failed ==>
                  Payload(st.hist.sent)
                  == st.send.accepted + Flatten(st.slot.entry.pending) + Payload(Proj(After(s, run).egress, id)))
  {
    InitialInv(s);
    RunKeepsInv(s, run);
    var st := After(s, run).streams[id];
    var q := Proj(After(s, run).egress, id);
    assert StreamInv(st, q);
    PayloadAppend(st.hist.handled, q);
  }

  /** The fin goes out at most once, and then the library has exactly the bytes written, all of them
      written before the shutdown. */
  lemma FinAfterEverything(s: State, run: seq<Action>, id: Id)
    requires Initial(s) && Possible(s, run)
    requires id in After(s, run).streams
    ensures var st := After(s, run).streams[id];
            && st.send.fins <= 1
            && (st.send.fins == 1 ==>
                  Fin in st.hist.sent && st.send.accepted == Payload(st.hist.sent))
            && Orderly(st.hist.sent)
  {
    InitialInv(s);
    RunKeepsInv(s, run);
    var st := After(s, run).streams[id];
    assert StreamInv(st, Proj(After(s, run).egress, id));
    if st.send.fins == 1 {
      FinEndsPayload(st.hist.handled, Proj(After(s, run).egress, id));
    }
  }

  /** A stream leaves the map by reaping only after its close notice, with nothing left behind: no
      message of it is queued, and the library has every byte and the fin, if there was one, unless
      the transport failed first. */
  lemma ReapingLosesNothing(s: State, run: seq<Action>, id: Id)
    requires Initial(s) && Possible(s, run)
    requires id in After(s, run).streams && After(s, run).streams[id].slot.Reaped?
    ensures var st := After(s, run).streams[id];
            && Proj(After(s, run).egress, id) == []
            && st.side.task == Ended && Closed in st.hist.sent
            && (!st.send.failed ==>
                  st.send.accepted == Payload(st.hist.sent) && (Fin in st.hist.sent <==> st.send.fins == 1))
  {
    InitialInv(s);
    RunKeepsInv(s, run);
    var st := After(s, run).streams[id];
    var q := Proj(After(s, run).egress, id);
    assert StreamInv(st, q);
    if q != [] {
      QueuedMeansOpen(st.hist.handled, q);
    }
    assert st.hist.handled + [] == st.hist.handled;
  }

  lemma BufferBound(side: Side)
    requires ChanOk(side.chan) && |side.rxBuf| <= RECV_CHUNK
    ensures |side.rxBuf| + |Flatten(side.chan)| <= (INBOUND_CHANNEL_CAP + 1) * RECV_CHUNK
  {
    FlattenBound(side.chan, RECV_CHUNK);
  }

  /** While the bridge reads, what was taken from the library is what it returned, then `rx_buf`,
      then the channel; and the buffers are bounded. */
  lemma InboundConservation(s: State, run: seq<Action>, id: Id)
    requires Initial(s) && Possible(s, run)
    requires id in After(s, run).streams
    ensures var st := After(s, run).streams[id];
            && st.hist.read <= st.hist.taken
            && (st.side.task == Alive ==>
                  st.hist.taken == st.hist.read + st.side.rxBuf + Flatten(st.side.chan))
            && |st.side.rxBuf| + |Flatten(st.side.chan)| <= (32 + 1) * 16384
  {
    InitialInv(s);
    RunKeepsInv(s, run);
    var st := After(s, run).streams[id];
    assert StreamInv(st, Proj(After(s, run).egress, id));
    BufferBound(st.side);
  }

  /** EOF is honest: without a reset, a refusal, a lost connection or a transport error, a bridge
      that has seen EOF has read every byte that arrived, and the peer's fin has arrived. */
  lemma HonestEof(s: State, run: seq<Action>, id: Id)
    requires Initial(s) && Possible(s, run)
    requires id in After(s, run).streams
    ensures var st := After(s, run).streams[id];
            st.side.rxEof && !st.slot.Cut? && !st.recv.failed ==>
              st.recv.finArrived && st.recv.avail == [] && st.hist.read == st.hist.taken
  {
    InitialInv(s);
    RunKeepsInv(s, run);
    assert StreamInv(After(s, run).streams[id], Proj(After(s, run).egress, id));
  }

  /** No lost wake-up. With the loop parked, a stream whose bridge still reads and that has body
      bytes or an end left is readable behind a full channel, or has a permit stored, or its reader
      is about to store one; only a connection whose event poll failed may have an event left. */
  lemma NoLostWakeup(s: State, run: seq<Action>, id: Id)
    requires Initial(s) && Possible(s, run)
    requires After(s, run).pc.Parked? && id in After(s, run).streams
    ensures var t := After(s, run);
            var st := t.streams[id];
            SenderOpen(st) && st.side.task == Alive && (st.recv.avail != [] || st.recv.finArrived) ==>
              || (st.slot.entry.readable && (|st.side.chan| == 32 || t.permit || st.side.credit))
              || (EventQueued(st.recv) && id.key in t.failed)
  {
    InitialInv(s);
    RunKeepsInv(s, run);
    assert WakeInv(After(s, run), id, After(s, run).streams[id]);
  }

  /** Whatever wakes the loop, the connections concerned are serviced before it waits again: all of them
      after a signal or a timeout, the one a packet or a message is for otherwise. */
  lemma EveryWakeServes(s: State, w: WakeAction)
    requires WakeEnabled(s, w)
    ensures var t := DoWake(s, w);
            match w
            case WakePacket(k) => DuePoll(t.pc, k) && t == s.(pc := t.pc)
            case WakeCredit(_) => (forall k :: k in s.conns ==> DuePoll(t.pc, k)) && t == s.(pc := t.pc, permit := false)
            case WakeTimer(_) => (forall k :: k in s.conns ==> DuePoll(t.pc, k)) && t == s.(pc := t.pc)
            case WakeEgress =>
              (s.egress[0].id.key in s.conns ==> DuePoll(t.pc, s.egress[0].id.key)) && t.egress == s.egress[1..]
  {
  }

  /** A writer waits exactly while 256 messages are in the channel. */
  lemma EgressBound(s: State, run: seq<Action>)
    requires Initial(s) && Possible(s, run)
    ensures var t := After(s, run);
            |t.egress| <= 256 && (HasRoom(t) <==> !t.pc.Exited? && |t.egress| != 256)
  {
    InitialInv(s);
    RunKeepsInv(s, run);
  }

  /** With the loop parked, a stream with bytes or a fin to send is held up by flow control alone, and
      a stream whose bridge has finished is kept only for that reason. */
  lemma NothingHeldBack(s: State, run: seq<Action>, id: Id)
    requires Initial(s) && Possible(s, run)
    requires After(s, run).pc.Parked? && id in After(s, run).streams
    ensures var st := After(s, run).streams[id];
            st.slot.Live? && (st.slot.entry.pending != [] || FinOwed(st.slot.entry) || st.slot.entry.closed) ==>
              st.send.blocked
  {
    InitialInv(s);
    RunKeepsInv(s, run);
    assert WakeInv(After(s, run), id, After(s, run).streams[id]);
  }

  /** A bridge that can do nothing: its reader waits on an empty channel. */
  predicate Waiting(st: Stream) {
    st.side.task == Alive && !st.side.credit && st.side.rxBuf == [] && st.side.chan == []
  }

  /** When everything is idle, nothing is stranded: with the loop parked, no permit stored, the egress
      channel empty and the reader waiting, every byte that arrived has been read and the end has been
      passed on, and every byte written is with the library unless flow control holds it. */
  lemma IdleMeansDelivered(s: State, run: seq<Action>, id: Id)
    requires Initial(s) && Possible(s, run)
    requires var t := After(s, run);
             t.pc.Parked? && !t.permit && t.egress == [] && id in t.streams && id.key !in t.failed
    requires SenderOpen(After(s, run).streams[id]) && Waiting(After(s, run).streams[id])
    ensures var st := After(s, run).streams[id];
            && !st.recv.finArrived
            && st.hist.read == st.hist.taken + st.recv.avail
            && (!st.send.failed && !st.send.blocked ==> st.send.accepted == Payload(st.hist.sent))
  {
    NoLostWakeup(s, run, id);
    NothingHeldBack(s, run, id);
    InboundConservation(s, run, id);
    OutboundConservation(s, run, id);
    assert Flatten([]) == [] && Payload([]) == [];
  }
}
