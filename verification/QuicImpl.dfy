/**
 `src/quic.rs` in its own form: the loop's `StreamState` objects, the pumps that walk its stream map
 in hash-map order, and the `QuicStream` adapter. Each method is proved to compute the function of
 `StreamCore` that `EventLoop` interleaves.
 */
module QuicImpl {
  import opened Bytes
  import opened StreamCore
  import opened Wrappers

  // ---------------------------------------------------------------- library contracts

  /** A bounded `mpsc` channel of received chunks: one sender, one receiver. */
  class InboundChannel {
    var queue: seq<bytes>
    var senderOpen: bool
    var receiverOpen: bool

    constructor ()
      ensures queue == [] && senderOpen && receiverOpen
    {
      queue, senderOpen, receiverOpen := [], true, true;
    }
  }

  /** The bounded `mpsc` channel every bridge of a loop sends into. */
  class EgressChannel {
    var queue: seq<Egress>
    var receiverOpen: bool
  }

  /** `tokio::sync::Notify` with its single stored permit. */
  class Notify {
    var permit: bool

    method NotifyOne()
      modifies this
      ensures permit
    {
      permit := true;
    }
  }

  /** The HTTP/3 library's side of one stream, with the answers it will give. */
  class Http3Stream {
    var send: SendSide
    var recv: RecvSide
    var sends: seq<SendAnswer>
    var answers: seq<RecvAnswer>
    var readStopped: bool
    var writeReset: bool

    method SendBodyTo(data: bytes, fin: bool) returns (r: SendAnswer)
      modifies this`send, this`sends
      ensures r == Answer(old(send), |data|, old(sends))
      ensures send == SendBody(old(send), data, fin, old(sends)) && sends == Later(old(sends))
    {
      r := Answer(send, |data|, sends);
      send, sends := SendBody(send, data, fin, sends), Later(sends);
    }

    method RecvBodyOf() returns (r: RecvResult)
      modifies this`recv, this`answers
      ensures r == RecvResultOf(old(recv), old(answers))
      ensures recv == RecvBody(old(recv), old(answers)) && answers == Later(old(answers))
    {
      r := RecvResultOf(recv, answers);
      recv, answers := RecvBody(recv, answers), Later(answers);
    }
  }

  // ---------------------------------------------------------------- the loop's side

  class StreamState {
    /** The channel the stream was opened with; `inboundTx` refers to it until it is given up. */
    ghost const channel: InboundChannel
    var inboundTx: InboundChannel?
    var readable: bool
    var pending: seq<bytes>
    var finPending: bool
    var finSent: bool
    var closed: bool

    function View(): Entry
      reads this
    {
      Entry(inboundTx != null, readable, pending, finPending, finSent, closed)
    }

    ghost predicate Wired()
      reads this, channel
    {
      (inboundTx != null ==> inboundTx == channel) && channel.senderOpen == (inboundTx != null)
    }

    constructor Tunnel(tx: InboundChannel)
      requires tx.senderOpen
      ensures View() == FRESH_ENTRY && channel == tx && Wired()
    {
      channel := tx;
      inboundTx := tx;
      readable, pending, finPending, finSent, closed := false, [], false, false, false;
    }

    method MarkReadable()
      modifies this`readable
      ensures View() == old(View()).(readable := true)
    {
      readable := true;
    }

    method QueueOut(out: StreamOut)
      modifies this`pending, this`finPending, this`closed
      ensures View() == Queue(old(View()), out)
    {
      match out
      case Data(b) => pending := pending + [b];
      case Fin => finPending := true;
      case Closed => closed := true;
    }

    /** The inner loop of `pump_outbound`. */
    method DrainOne(h3: Http3Stream)
      modifies this`pending, this`finSent, h3`send, h3`sends
      ensures OutPass(View(), h3.send, h3.sends)
           == DrainPending(old(View()), old(h3.send), old(h3.sends))
      ensures inboundTx == old(inboundTx)
    {
      ghost var goal := DrainPending(View(), h3.send, h3.sends);
      while |pending| > 0
        invariant DrainPending(View(), h3.send, h3.sends) == goal
        decreases |pending|
      {
        var front := pending[0];
        var r := h3.SendBodyTo(front, false);
        match r {
          case Took(n) =>
            if n == |front| {
              pending := pending[1..];
            } else {
              pending := [front[n..]] + pending[1..];
              break;
            }
          case Blocked =>
            break;
          case Failed =>
            pending := [];
            finSent := true;
            break;
        }
      }
    }

    /** The fin hand-over of `pump_outbound`. */
    method HandFinOne(h3: Http3Stream)
      modifies this`finSent, h3`send, h3`sends
      ensures OutPass(View(), h3.send, h3.sends)
           == HandFin(old(View()), old(h3.send), old(h3.sends))
      ensures inboundTx == old(inboundTx)
    {
      if |pending| == 0 && finPending && !finSent {
        var r := h3.SendBodyTo([], true);
        match r {
          case Took(_) => finSent := true;
          case Blocked =>
          case Failed => finSent := true;
        }
      }
    }

    /** The body of `pump_outbound`'s loop over streams. */
    method PumpOutOne(h3: Http3Stream)
      modifies this`pending, this`finSent, h3`send, h3`sends
      ensures OutPass(View(), h3.send, h3.sends)
           == PumpOut(old(View()), old(h3.send), old(h3.sends))
      ensures inboundTx == old(inboundTx)
    {
      DrainOne(h3);
      HandFinOne(h3);
    }

    /** `inbound_tx = None`: the bridge reads EOF once the channel is empty. */
    method CloseInbound()
      requires Wired() && inboundTx != null
      modifies this`inboundTx, channel`senderOpen
      ensures Wired() && inboundTx == null
    {
      inboundTx.senderOpen := false;
      inboundTx := null;
    }

    /** One iteration of `pump_inbound`'s inner loop: reserve a slot of the channel, then read. */
    method ReadOne(h3: Http3Stream) returns (again: bool)
      requires Wired() && inboundTx != null
      modifies this`readable, this`inboundTx, channel`queue, channel`senderOpen
      modifies h3`recv, h3`answers, h3`readStopped
      ensures InPass(View(), channel.queue, h3.recv, h3.answers, again)
           == RecvOne(old(View()), old(channel.queue), channel.receiverOpen, old(h3.recv), old(h3.answers))
      ensures Wired()
      ensures h3.readStopped == (old(h3.readStopped) || !channel.receiverOpen)
    {
      again := false;
      if !inboundTx.receiverOpen {
        readable := false;
        CloseInbound();
        h3.readStopped := true;
      } else if |inboundTx.queue| < INBOUND_CHANNEL_CAP {
        var r := h3.RecvBodyOf();
        match r {
          case Body(d) =>
            inboundTx.queue := inboundTx.queue + [d];
            again := true;
          case Done =>
            readable := false;
            if Finished(h3.recv) {
              CloseInbound();
            }
          case Error =>
            readable := false;
            CloseInbound();
        }
      }
    }

    /** The body of `pump_inbound`'s loop over streams. */
    method PumpInOne(h3: Http3Stream)
      requires Wired()
      modifies this`readable, this`inboundTx, channel`queue, channel`senderOpen
      modifies h3`recv, h3`answers, h3`readStopped
      ensures Wired() && WholeOf(this, h3) == PumpInOf(old(WholeOf(this, h3)))
    {
      if !readable {
        return;
      }
      if inboundTx == null {
        readable := false;
        return;
      }
      ghost var goal := PumpIn(View(), channel.queue, channel.receiverOpen, h3.recv, h3.answers);
      var again := true;
      while again
        invariant again ==> inboundTx != null && readable && h3.readStopped == old(h3.readStopped)
        invariant again ==> PumpIn(View(), channel.queue, channel.receiverOpen, h3.recv, h3.answers) == goal
        invariant !again ==> InPass(View(), channel.queue, h3.recv, h3.answers, false) == goal
        invariant !again ==> h3.readStopped == (old(h3.readStopped) || !channel.receiverOpen)
        invariant Wired() && channel.receiverOpen == old(channel.receiverOpen)
        decreases again, |h3.recv.avail|
      {
        VisitBytes(View(), channel.queue, channel.receiverOpen, h3.recv, h3.answers);
        again := ReadOne(h3);
      }
    }

    /** `reap_streams`' test of one stream, with what it does when it drops it: a write side whose
        fin never went out is reset, a read side that has not finished is stopped, and the channel is
        given up. */
    method RetainOne(h3: Http3Stream) returns (keep: bool)
      requires Wired()
      modifies this`inboundTx, channel`senderOpen, h3`readStopped, h3`writeReset
      ensures Wired() && keep == !old(Reapable(View()))
      ensures WholeOf(this, h3) == ReapOf(old(WholeOf(this, h3)))
    {
      var drained := |pending| == 0 && (!finPending || finSent);
      if !closed || !drained {
        return true;
      }
      if !finSent {
        h3.writeReset := true;
      }
      if !Finished(h3.recv) {
        h3.readStopped := true;
      }
      if inboundTx != null {
        CloseInbound();
      }
      keep := false;
    }
  }

  // ---------------------------------------------------------------- the pumps

  /** Everything the loop, the channel and the library hold of one stream. */
  datatype Channel = Channel(queue: seq<bytes>, senderOpen: bool, receiverOpen: bool)

  datatype Library = Library(
    send: SendSide,
    recv: RecvSide,
    sends: seq<SendAnswer>,
    answers: seq<RecvAnswer>,
    readStopped: bool,
    writeReset: bool)

  datatype Whole = Whole(entry: Entry, chan: Channel, lib: Library)

  ghost function WholeOf(st: StreamState, h3: Http3Stream): Whole
    reads st, st.channel, h3
  {
    Whole(st.View(),
      Channel(st.channel.queue, st.channel.senderOpen, st.channel.receiverOpen),
      Library(h3.send, h3.recv, h3.sends, h3.answers, h3.readStopped, h3.writeReset))
  }

  /** `pump_outbound` works on the entry and the library's send half, and on nothing else. */
  function PumpOutOf(w: Whole): Whole {
    var r := PumpOut(w.entry, w.lib.send, w.lib.sends);
    w.(entry := r.entry, lib := w.lib.(send := r.send, sends := r.plan))
  }

  /** `pump_inbound` works on the entry, the channel and the library's receive half; the read side is
      stopped just when the stream is readable and its bridge has gone. */
  function PumpInOf(w: Whole): Whole {
    var r := PumpIn(w.entry, w.chan.queue, w.chan.receiverOpen, w.lib.recv, w.lib.answers);
    var stopped := w.entry.readable && w.entry.inboundOpen && !w.chan.receiverOpen;
    Whole(r.entry,
      w.chan.(queue := r.chan, senderOpen := r.entry.inboundOpen),
      w.lib.(recv := r.recv, answers := r.plan, readStopped := w.lib.readStopped || stopped))
  }

  /** `reap_streams` leaves a stream it keeps as it was. One it drops gives up its channel; its write side
      is reset if the fin never went out, and its read side stopped if it was not read to the end. */
  function ReapOf(w: Whole): Whole {
    if !Reapable(w.entry) then w
    else
      Whole(w.entry.(inboundOpen := false),
        w.chan.(senderOpen := false),
        w.lib.(writeReset := w.lib.writeReset || !w.entry.finSent,
               readStopped := w.lib.readStopped || !Finished(w.lib.recv)))
  }

  /** The loop's map of one connection and the library's streams: every stream has its own objects. */
  ghost predicate Apart(streams: map<nat, StreamState>, lib: map<nat, Http3Stream>) {
    && streams.Keys <= lib.Keys
    && forall a, b :: a in streams && b in streams && a != b ==>
         streams[a] != streams[b] && streams[a].channel != streams[b].channel && lib[a] != lib[b]
  }

  ghost predicate AllWired(streams: map<nat, StreamState>)
    reads streams.Values, set st | st in streams.Values :: st.channel
  {
    forall sid :: sid in streams ==> streams[sid].Wired()
  }

  /** `objs` holds every object the pumps may touch. */
  ghost predicate Owned(streams: map<nat, StreamState>, lib: map<nat, Http3Stream>, objs: set<object>) {
    forall sid :: sid in streams && sid in lib ==>
      streams[sid] in objs && streams[sid].channel in objs && lib[sid] in objs
  }

  /** A visit to one stream leaves every other as it was. */
  method VisitOutbound(streams: map<nat, StreamState>, lib: map<nat, Http3Stream>, sid: nat)
    requires Apart(streams, lib) && AllWired(streams) && sid in streams
    modifies streams[sid], lib[sid]
    ensures AllWired(streams)
    ensures WholeOf(streams[sid], lib[sid]) == PumpOutOf(old(WholeOf(streams[sid], lib[sid])))
    ensures forall j :: j in streams && j != sid ==> WholeOf(streams[j], lib[j]) == old(WholeOf(streams[j], lib[j]))
  {
    streams[sid].PumpOutOne(lib[sid]);
  }

  /** `pump_outbound`: every stream once, in whatever order the map yields them. */
  method PumpOutbound(streams: map<nat, StreamState>, lib: map<nat, Http3Stream>, ghost objs: set<object>)
    requires Apart(streams, lib) && AllWired(streams) && Owned(streams, lib, objs)
    modifies objs
    ensures AllWired(streams)
    ensures forall sid :: sid in streams ==>
              WholeOf(streams[sid], lib[sid]) == PumpOutOf(old(WholeOf(streams[sid], lib[sid])))
  {
    var todo := streams.Keys;
    while todo != {}
      invariant todo <= streams.Keys && AllWired(streams)
      invariant forall sid :: sid in todo ==> WholeOf(streams[sid], lib[sid]) == old(WholeOf(streams[sid], lib[sid]))
      invariant forall sid :: sid in streams && sid !in todo ==>
                  WholeOf(streams[sid], lib[sid]) == PumpOutOf(old(WholeOf(streams[sid], lib[sid])))
      decreases todo
    {
      var sid :| sid in todo;
      VisitOutbound(streams, lib, sid);
      todo := todo - {sid};
    }
  }

  method VisitInbound(streams: map<nat, StreamState>, lib: map<nat, Http3Stream>, sid: nat)
    requires Apart(streams, lib) && AllWired(streams) && sid in streams
    modifies streams[sid], lib[sid], streams[sid].channel
    ensures AllWired(streams)
    ensures WholeOf(streams[sid], lib[sid]) == PumpInOf(old(WholeOf(streams[sid], lib[sid])))
    ensures forall j :: j in streams && j != sid ==> WholeOf(streams[j], lib[j]) == old(WholeOf(streams[j], lib[j]))
  {
    streams[sid].PumpInOne(lib[sid]);
  }

  /** `pump_inbound`: every stream once, in whatever order the map yields them, while no bridge runs;
      `EventLoop` lets them run. */
  method PumpInbound(streams: map<nat, StreamState>, lib: map<nat, Http3Stream>, ghost objs: set<object>)
    requires Apart(streams, lib) && AllWired(streams) && Owned(streams, lib, objs)
    modifies objs
    ensures AllWired(streams)
    ensures forall sid :: sid in streams ==>
              WholeOf(streams[sid], lib[sid]) == PumpInOf(old(WholeOf(streams[sid], lib[sid])))
  {
    var todo := streams.Keys;
    while todo != {}
      invariant todo <= streams.Keys && AllWired(streams)
      invariant forall sid :: sid in todo ==> WholeOf(streams[sid], lib[sid]) == old(WholeOf(streams[sid], lib[sid]))
      invariant forall sid :: sid in streams && sid !in todo ==>
                  WholeOf(streams[sid], lib[sid]) == PumpInOf(old(WholeOf(streams[sid], lib[sid])))
      decreases todo
    {
      var sid :| sid in todo;
      VisitInbound(streams, lib, sid);
      todo := todo - {sid};
    }
  }

  method VisitReap(streams: map<nat, StreamState>, lib: map<nat, Http3Stream>, sid: nat)
    requires Apart(streams, lib) && AllWired(streams) && sid in streams
    modifies streams[sid], lib[sid], streams[sid].channel
    ensures AllWired(streams)
    ensures WholeOf(streams[sid], lib[sid]) == ReapOf(old(WholeOf(streams[sid], lib[sid])))
    ensures forall j :: j in streams && j != sid ==> WholeOf(streams[j], lib[j]) == old(WholeOf(streams[j], lib[j]))
  {
    var keep := streams[sid].RetainOne(lib[sid]);
  }

  /** The closure of `reap_streams` on every stream, in whatever order the map yields them. */
  method ReapEach(streams: map<nat, StreamState>, lib: map<nat, Http3Stream>, ghost objs: set<object>)
    requires Apart(streams, lib) && AllWired(streams) && Owned(streams, lib, objs)
    modifies objs
    ensures AllWired(streams)
    ensures forall sid :: sid in streams ==>
              WholeOf(streams[sid], lib[sid]) == ReapOf(old(WholeOf(streams[sid], lib[sid])))
  {
    var todo := streams.Keys;
    while todo != {}
      invariant todo <= streams.Keys && AllWired(streams)
      invariant forall sid :: sid in todo ==> WholeOf(streams[sid], lib[sid]) == old(WholeOf(streams[sid], lib[sid]))
      invariant forall sid :: sid in streams && sid !in todo ==>
                  WholeOf(streams[sid], lib[sid]) == ReapOf(old(WholeOf(streams[sid], lib[sid])))
      decreases todo
    {
      var sid :| sid in todo;
      VisitReap(streams, lib, sid);
      todo := todo - {sid};
    }
  }

  /** `reap_streams`: exactly the streams whose bridge is done and whose output is settled leave the
      map, and the others are left as they were. What decides that, nothing in the pass changes; so the
      kept map is read off at the end. */
  method ReapStreams(streams: map<nat, StreamState>, lib: map<nat, Http3Stream>, ghost objs: set<object>)
    returns (kept: map<nat, StreamState>)
    requires Apart(streams, lib) && AllWired(streams) && Owned(streams, lib, objs)
    modifies objs
    ensures AllWired(streams)
    ensures forall sid :: sid in streams ==>
              WholeOf(streams[sid], lib[sid]) == ReapOf(old(WholeOf(streams[sid], lib[sid])))
    ensures forall sid :: sid in kept <==> sid in streams && !old(Reapable(WholeOf(streams[sid], lib[sid]).entry))
    ensures forall sid :: sid in kept ==> kept[sid] == streams[sid]
  {
    ReapEach(streams, lib, objs);
    kept := map sid | sid in streams && !Reapable(streams[sid].View()) :: streams[sid];
    forall sid | sid in streams
      ensures Reapable(streams[sid].View()) == old(Reapable(WholeOf(streams[sid], lib[sid]).entry))
    {
      assert WholeOf(streams[sid], lib[sid]) == ReapOf(old(WholeOf(streams[sid], lib[sid])));
    }
  }

  /** What reaping does to a stream, said by what it may not do: a kept stream is untouched, and of a dropped
      one only the channel's sender and the two shutdowns change. */
  lemma ReapTouchesLittle(w: Whole)
    ensures !(w.entry.closed && w.entry.pending == [] && (w.entry.finPending ==> w.entry.finSent)) ==> ReapOf(w) == w
    ensures var r := ReapOf(w);
            && r.entry == w.entry.(inboundOpen := r.entry.inboundOpen)
            && r.chan == w.chan.(senderOpen := r.chan.senderOpen)
            && r.lib == w.lib.(readStopped := r.lib.readStopped, writeReset := r.lib.writeReset)
            && (r != w ==> !r.entry.inboundOpen && !r.chan.senderOpen)
            && (r != w ==> (r.lib.writeReset || w.entry.finSent) && (r.lib.readStopped || Finished(w.lib.recv)))
            && (r.lib.writeReset ==> w.lib.writeReset || !w.entry.finSent)
            && (r.lib.readStopped ==> w.lib.readStopped || !Finished(w.lib.recv))
  {
  }

  /** What each pump leaves alone: the outbound one the channel and the receive half, the inbound one what
      is queued for sending and the send half. The inbound one stops a read side only when nobody reads. */
  lemma PumpsStayApart(w: Whole)
    ensures var o := PumpOutOf(w);
            && o.chan == w.chan && o.lib == w.lib.(send := o.lib.send, sends := o.lib.sends)
            && o.entry == w.entry.(pending := o.entry.pending, finSent := o.entry.finSent)
    ensures var i := PumpInOf(w);
            && i.lib == w.lib.(recv := i.lib.recv, answers := i.lib.answers, readStopped := i.lib.readStopped)
            && i.entry == w.entry.(readable := i.entry.readable, inboundOpen := i.entry.inboundOpen)
            && i.chan.receiverOpen == w.chan.receiverOpen && w.chan.queue <= i.chan.queue
            && (i.lib.readStopped && !w.lib.readStopped ==> !w.chan.receiverOpen && !i.chan.senderOpen)
            && (w.lib.readStopped ==> i.lib.readStopped)
            && (!w.chan.receiverOpen && w.entry.readable && w.entry.inboundOpen ==> i.lib.readStopped)
  {
    PumpOutConserves(w.entry, w.lib.send, w.lib.sends);
    PumpInConserves(w.entry, w.chan.queue, w.chan.receiverOpen, w.lib.recv, w.lib.answers);
  }

  // ---------------------------------------------------------------- the bridge's side

  /** The `AsyncRead + AsyncWrite` view of one stream that a bridge drives. */
  class QuicStream {
    const id: Id
    const rx: InboundChannel
    const readCredit: Notify
    const tx: EgressChannel
    var rxBuf: bytes
    var rxEof: bool
    var shutdownSent: bool

    constructor (id: Id, rx: InboundChannel, readCredit: Notify, egress: EgressChannel)
      ensures this.id == id && this.rx == rx && this.readCredit == readCredit && tx == egress
      ensures rxBuf == [] && !rxEof && !shutdownSent
    {
      this.id, this.rx, this.readCredit, tx := id, rx, readCredit, egress;
      rxBuf, rxEof, shutdownSent := [], false, false;
    }

    /** The loop is woken exactly when a slot of the channel was freed. */
    method Read(room: nat) returns (r: Poll<bytes>)
      modifies this`rxBuf, this`rxEof, rx`queue, readCredit
      ensures var p := PollRead(old(rxBuf), old(rxEof), old(rx.queue), rx.senderOpen, room);
              && r == p.out && rxBuf == p.rxBuf && rxEof == p.rxEof && rx.queue == p.chan
              && readCredit.permit == (old(readCredit.permit) || p.popped > 0)
    {
      ghost var goal := PollRead(rxBuf, rxEof, rx.queue, rx.senderOpen, room);
      ghost var pops := 0;
      while true
        invariant var p := PollRead(rxBuf, rxEof, rx.queue, rx.senderOpen, room);
                  p.(popped := p.popped + pops) == goal
        invariant readCredit.permit == (old(readCredit.permit) || pops > 0)
        decreases |rx.queue|
      {
        if |rxBuf| > 0 {
          var n := Min(room, |rxBuf|);
          r := Ready(rxBuf[..n]);
          rxBuf := rxBuf[n..];
          return;
        }
        if rxEof {
          return Ready([]);
        }
        if |rx.queue| > 0 {
          var b := rx.queue[0];
          rx.queue := rx.queue[1..];
          readCredit.NotifyOne();
          rxBuf := b;
          pops := pops + 1;
        } else if !rx.senderOpen {
          rxEof := true;
          return Ready([]);
        } else {
          return Pending;
        }
      }
    }

    /** A message goes into the egress channel under this stream's id, behind everything else. */
    twostate predicate Sent(out: StreamOut)
      reads tx
    {
      tx.queue == old(tx.queue) + [Egress(id, out)]
    }

    method Write(data: bytes) returns (r: Poll<Result<nat, BrokenPipe>>)
      modifies tx`queue
      ensures r == if shutdownSent || !tx.receiverOpen then Ready(Err(LoopGone))
                   else if |old(tx.queue)| < EGRESS_CHANNEL_CAP then Ready(Ok(|data|))
                   else Pending
      ensures if r == Ready(Ok(|data|)) then Sent(Data(data)) else tx.queue == old(tx.queue)
    {
      if shutdownSent {
        return Ready(Err(LoopGone));
      }
      if !tx.receiverOpen {
        r := Ready(Err(LoopGone));
      } else if |tx.queue| < EGRESS_CHANNEL_CAP {
        tx.queue := tx.queue + [Egress(id, Data(data))];
        r := Ready(Ok(|data|));
      } else {
        r := Pending;
      }
    }

    method Shutdown() returns (r: Poll<()>)
      modifies this`shutdownSent, tx`queue
      ensures r.Ready? <==> shutdownSent
      ensures old(shutdownSent) ==> shutdownSent
      ensures if r.Ready? && !old(shutdownSent) && tx.receiverOpen then Sent(Fin) else tx.queue == old(tx.queue)
      ensures r.Pending? ==> tx.receiverOpen && |tx.queue| >= EGRESS_CHANNEL_CAP
    {
      if shutdownSent {
        return Ready(());
      }
      if !tx.receiverOpen {
        shutdownSent := true;
        r := Ready(());
      } else if |tx.queue| < EGRESS_CHANNEL_CAP {
        tx.queue := tx.queue + [Egress(id, Fin)];
        shutdownSent := true;
        r := Ready(());
      } else {
        r := Pending;
      }
    }
  }

  datatype BrokenPipe = LoopGone
}
