/**
 The per-stream arithmetic of `src/quic.rs`, on values: what `queue`, one pass of `pump_outbound`,
 one iteration of `pump_inbound`, `reap_streams` and the three poll functions do to one stream.
 The classes of `QuicImpl` are proved to compute these functions, and `EventLoop` interleaves them.

 The HTTP/3 library is outside the repository. It appears here as a contract driven by a plan: the
 plan is an arbitrary list of answers, clamped to what the library may answer, so a statement for
 all plans is a statement for all behaviours of the library.
 */
module StreamCore {
  import opened Bytes

  /** Most bytes one `recv_body` call returns. */
  const RECV_CHUNK: nat := 16 * 1024

  /** Chunks an inbound channel holds. */
  const INBOUND_CHANNEL_CAP: nat := 32

  /** Messages the shared egress channel holds. */
  const EGRESS_CHANNEL_CAP: nat := 256

  datatype StreamOut = Data(payload: bytes) | Fin | Closed

  /** A connection key; the client's one connection has the empty one. */
  type Key = seq<byte>

  datatype Id = Id(key: Key, sid: nat)

  /** A message in the egress channel, which all streams of a loop share. */
  datatype Egress = Egress(id: Id, out: StreamOut)

  /** The event loop's `StreamState`. `inboundOpen` says that `inbound_tx` is still `Some`. */
  datatype Entry = Entry(
    inboundOpen: bool,
    readable: bool,
    pending: seq<bytes>,
    finPending: bool,
    finSent: bool,
    closed: bool)

  const FRESH_ENTRY: Entry := Entry(true, false, [], false, false, false)

  function Queue(e: Entry, out: StreamOut): Entry {
    match out
    case Data(b) => e.(pending := e.pending + [b])
    case Fin => e.(finPending := true)
    case Closed => e.(closed := true)
  }

  // ---------------------------------------------------------------- app to QUIC

  datatype SendAnswer = Took(n: nat) | Blocked | Failed

  /** The library's send half of one stream: bytes taken, fins taken, the sticky error, and whether
      the last call was cut short by flow control. */
  datatype SendSide = SendSide(accepted: bytes, fins: nat, failed: bool, blocked: bool)

  const FRESH_SEND: SendSide := SendSide([], 0, false, false)

  /** The library's answer to `send_body` with `len` bytes: a prefix, `Done`, or an error; an error
      is sticky. */
  function Answer(o: SendSide, len: nat, plan: seq<SendAnswer>): SendAnswer {
    if o.failed then Failed
    else if plan == [] then Blocked
    else if plan[0].Took? then Took(Min(plan[0].n, len))
    else plan[0]
  }

  function Later<T>(plan: seq<T>): seq<T> {
    if plan == [] then [] else plan[1..]
  }

  function SendBody(o: SendSide, data: bytes, fin: bool, plan: seq<SendAnswer>): SendSide {
    match Answer(o, |data|, plan)
    case Took(n) =>
      o.(accepted := o.accepted + data[..n],
         fins := if fin && n == |data| then o.fins + 1 else o.fins,
         blocked := n < |data|)
    case Blocked => o.(blocked := true)
    case Failed => o.(failed := true)
  }

  datatype OutPass = OutPass(entry: Entry, send: SendSide, plan: seq<SendAnswer>)

  /** The `while let Some(front)` loop of `pump_outbound` for one stream. */
  function DrainPending(e: Entry, o: SendSide, plan: seq<SendAnswer>): OutPass
    decreases |e.pending|
  {
    if e.pending == [] then
      OutPass(e, o, plan)
    else
      var front := e.pending[0];
      var o' := SendBody(o, front, false, plan);
      match Answer(o, |front|, plan)
      case Took(n) =>
        if n == |front| then
          DrainPending(e.(pending := e.pending[1..]), o', Later(plan))
        else
          OutPass(e.(pending := [front[n..]] + e.pending[1..]), o', Later(plan))
      case Blocked => OutPass(e, o', Later(plan))
      case Failed => OutPass(e.(pending := [], finSent := true), o', Later(plan))
  }

  /** The fin hand-over that follows the loop. */
  function HandFin(e: Entry, o: SendSide, plan: seq<SendAnswer>): OutPass {
    if e.pending == [] && e.finPending && !e.finSent then
      OutPass(e.(finSent := !Answer(o, 0, plan).Blocked?), SendBody(o, [], true, plan), Later(plan))
    else
      OutPass(e, o, plan)
  }

  /** All `pump_outbound` does to one stream. */
  function PumpOut(e: Entry, o: SendSide, plan: seq<SendAnswer>): OutPass {
    var d := DrainPending(e, o, plan);
    HandFin(d.entry, d.send, d.plan)
  }

  /** A fin is owed and has not been handed over. */
  predicate FinOwed(e: Entry) {
    e.finPending && !e.finSent
  }

  /** The test `reap_streams` makes before it drops a stream. */
  predicate Reapable(e: Entry) {
    e.closed && e.pending == [] && !FinOwed(e)
  }

  /** What draining keeps: no byte is lost, repeated or reordered until the error; the loop stops
      early only on flow control; an error takes nothing more and empties the queue. */
  ghost predicate DrainEffect(e: Entry, o: SendSide, r: OutPass) {
    && r.entry == e.(pending := r.entry.pending, finSent := r.entry.finSent)
    && o.accepted <= r.send.accepted <= o.accepted + Flatten(e.pending)
    && r.send.fins == o.fins
    && (o.failed ==> r.send.failed && r.send.accepted == o.accepted)
    && (!r.send.failed ==>
          && r.send.accepted + Flatten(r.entry.pending) == o.accepted + Flatten(e.pending)
          && r.entry.finSent == e.finSent)
    && (r.send.failed && !o.failed ==> r.entry.pending == [] && r.entry.finSent)
    && (e.finSent ==> r.entry.finSent)
    && (r.entry.finSent ==> e.finSent || r.send.failed)
    && (r.entry.pending != [] ==> r.send.blocked)
  }

  lemma PrefixChain(a: bytes, b: bytes, c: bytes)
    requires a <= b <= c
    ensures a <= c
  {
  }

  lemma DrainPartial(e: Entry, o: SendSide, n: nat)
    requires e.pending != [] && !o.failed && n < |e.pending[0]|
    ensures var front := e.pending[0];
            var o' := o.(accepted := o.accepted + front[..n], blocked := true);
            var e' := e.(pending := [front[n..]] + e.pending[1..]);
            DrainEffect(e, o, OutPass(e', o', []))
  {
    var front := e.pending[0];
    var rest := [front[n..]] + e.pending[1..];
    assert rest[1..] == e.pending[1..];
    assert front == front[..n] + front[n..];
    assert o.accepted + Flatten(e.pending) == o.accepted + front[..n] + Flatten(rest);
  }

  lemma DrainStep(e: Entry, o: SendSide, o': SendSide, r: OutPass)
    requires e.pending != [] && !o.failed
    requires o' == o.(accepted := o.accepted + e.pending[0], blocked := false)
    requires DrainEffect(e.(pending := e.pending[1..]), o', r)
    ensures DrainEffect(e, o, r)
  {
    assert o.accepted + Flatten(e.pending) == o'.accepted + Flatten(e.pending[1..]);
    PrefixChain(o.accepted, o'.accepted, r.send.accepted);
  }

  lemma DrainStops(e: Entry, o: SendSide, plan: seq<SendAnswer>)
    requires e.pending != [] && Answer(o, |e.pending[0]|, plan) != Took(|e.pending[0]|)
    ensures DrainEffect(e, o, DrainPending(e, o, plan))
  {
    var answer := Answer(o, |e.pending[0]|, plan);
    if answer.Took? {
      DrainPartial(e, o, answer.n);
    }
  }

  lemma {:induction false} DrainConserves(e: Entry, o: SendSide, plan: seq<SendAnswer>)
    ensures DrainEffect(e, o, DrainPending(e, o, plan))
    decreases |e.pending|
  {
    if e.pending != [] {
      var front := e.pending[0];
      if Answer(o, |front|, plan) != Took(|front|) {
        DrainStops(e, o, plan);
      } else {
        var o' := SendBody(o, front, false, plan);
        assert front[..|front|] == front;
        DrainConserves(e.(pending := e.pending[1..]), o', Later(plan));
        DrainStep(e, o, o', DrainPending(e, o, plan));
      }
    }
  }

  /** What a whole outbound pass of one stream keeps. A fin goes out only with nothing in front of
      it, only when owed, and once. */
  ghost predicate OutEffect(e: Entry, o: SendSide, r: OutPass) {
    && r.entry == e.(pending := r.entry.pending, finSent := r.entry.finSent)
    && o.accepted <= r.send.accepted <= o.accepted + Flatten(e.pending)
    && o.fins <= r.send.fins <= o.fins + 1
    && (r.send.fins == o.fins + 1 ==>
          FinOwed(e) && r.entry.finSent && r.entry.pending == [] && !r.send.failed)
    && (o.failed ==> r.send.failed && r.send.accepted == o.accepted && r.send.fins == o.fins)
    && (!r.send.failed ==>
          && r.send.accepted + Flatten(r.entry.pending) == o.accepted + Flatten(e.pending)
          && (r.entry.finSent ==> e.finSent || r.send.fins == o.fins + 1))
    && (e.finSent ==> r.entry.finSent && r.send.fins == o.fins)
    && (r.entry.pending != [] || FinOwed(r.entry) ==> r.send.blocked)
  }

  lemma PumpOutConserves(e: Entry, o: SendSide, plan: seq<SendAnswer>)
    ensures OutEffect(e, o, PumpOut(e, o, plan))
  {
    DrainConserves(e, o, plan);
    var d := DrainPending(e, o, plan);
    if d.entry.pending == [] && FinOwed(d.entry) {
      assert d.send.accepted + [] == d.send.accepted;
      assert Flatten([]) == [];
    }
  }

  // ---------------------------------------------------------------- QUIC to app

  /** The HTTP/3 events the library has queued for one stream. */
  datatype Events = Events(headers: bool, data: bool, fin: bool, reset: bool)

  const NO_EVENTS: Events := Events(false, false, false, false)

  /** The library's receive half of one stream: body bytes that have arrived and were not read, the
      peer's fin, the sticky error and the queued events. `armed` says that the next body byte will
      queue a Data event; it goes false with that event and true again when `recv_body` answers
      Done. */
  datatype RecvSide = RecvSide(
    avail: bytes,
    finArrived: bool,
    failed: bool,
    armed: bool,
    events: Events)

  const FRESH_RECV: RecvSide := RecvSide([], false, false, true, NO_EVENTS)

  datatype RecvAnswer = Chunk(n: nat) | Broken

  datatype RecvResult = Body(data: bytes) | Done | Error

  /** How much of `len` available bytes a read takes: between one and RECV_CHUNK. */
  function ReadLen(len: nat, plan: seq<RecvAnswer>): (n: nat)
    requires len > 0
    ensures 1 <= n <= Min(RECV_CHUNK, len)
  {
    var most := Min(RECV_CHUNK, len);
    if plan == [] || !plan[0].Chunk? || plan[0].n > most then most
    else if plan[0].n == 0 then 1
    else plan[0].n
  }

  /** The library's answer to `recv_body`: between one and RECV_CHUNK of the available bytes, Done
      when there are none, or a sticky error. */
  function RecvResultOf(i: RecvSide, plan: seq<RecvAnswer>): RecvResult {
    if i.failed || (plan != [] && plan[0].Broken?) then Error
    else if i.avail == [] then Done
    else Body(i.avail[..ReadLen(|i.avail|, plan)])
  }

  /** The receive half after the first `n` available bytes were read. */
  function AfterRead(i: RecvSide, n: nat): RecvSide
    requires n <= |i.avail|
  {
    var raised := if n == |i.avail| && i.finArrived then i.events.(fin := true) else i.events;
    i.(avail := i.avail[n..], events := raised)
  }

  function RecvBody(i: RecvSide, plan: seq<RecvAnswer>): RecvSide {
    if i.failed || (plan != [] && plan[0].Broken?) then i.(failed := true)
    else if i.avail == [] then i.(armed := true)
    else AfterRead(i, ReadLen(|i.avail|, plan))
  }

  /** A read never takes more than 16 KiB and may take just that. */
  lemma ChunkLimit(i: RecvSide, plan: seq<RecvAnswer>)
    ensures RecvResultOf(i, plan).Body? ==> 1 <= |RecvResultOf(i, plan).data| <= 16384
    ensures |i.avail| >= 16384 && !i.failed ==> |RecvResultOf(i, [Chunk(16384)]).data| == 16384
  {
  }

  /** `stream_finished`: the peer's fin is in and the body has been read out. */
  predicate Finished(i: RecvSide) {
    i.finArrived && i.avail == []
  }

  datatype InPass = InPass(entry: Entry, chan: seq<bytes>, recv: RecvSide, plan: seq<RecvAnswer>, again: bool)

  /** One iteration of the inner loop of `pump_inbound`: reserve a slot, then read into it. `again`
      says that the loop goes round. */
  function RecvOne(e: Entry, chan: seq<bytes>, receiverOpen: bool, i: RecvSide, plan: seq<RecvAnswer>): InPass {
    if !receiverOpen then
      InPass(e.(readable := false, inboundOpen := false), chan, i, plan, false)
    else if |chan| >= INBOUND_CHANNEL_CAP then
      InPass(e, chan, i, plan, false)
    else
      var i' := RecvBody(i, plan);
      match RecvResultOf(i, plan)
      case Body(d) => InPass(e, chan + [d], i', Later(plan), true)
      case Done => InPass(e.(readable := false, inboundOpen := e.inboundOpen && !Finished(i')), chan, i', Later(plan), false)
      case Error => InPass(e.(readable := false, inboundOpen := false), chan, i', Later(plan), false)
  }

  /** One visit of `pump_inbound` to a stream: skipped when not readable, and no read without a
      channel to put the bytes in. */
  function VisitIn(e: Entry, chan: seq<bytes>, receiverOpen: bool, i: RecvSide, plan: seq<RecvAnswer>): InPass {
    if !e.readable then InPass(e, chan, i, plan, false)
    else if !e.inboundOpen then InPass(e.(readable := false), chan, i, plan, false)
    else RecvOne(e, chan, receiverOpen, i, plan)
  }

  /** All `pump_inbound` does to one stream while no reader runs. */
  function PumpIn(e: Entry, chan: seq<bytes>, receiverOpen: bool, i: RecvSide, plan: seq<RecvAnswer>): InPass
    decreases |i.avail|
  {
    var r := VisitIn(e, chan, receiverOpen, i, plan);
    if r.again then PumpIn(r.entry, r.chan, receiverOpen, r.recv, r.plan) else r
  }

  /** Every chunk fits one read and the channel holds no more than its capacity. */
  ghost predicate ChanOk(chan: seq<bytes>) {
    && |chan| <= INBOUND_CHANNEL_CAP
    && forall j :: 0 <= j < |chan| ==> |chan[j]| <= RECV_CHUNK
  }

  /** Bytes move from the library to the channel in order and none are dropped. */
  ghost predicate InBytes(chan: seq<bytes>, i: RecvSide, chan': seq<bytes>, i': RecvSide) {
    && chan <= chan'
    && Flatten(chan') + i'.avail == Flatten(chan) + i.avail
    && (ChanOk(chan) ==> ChanOk(chan'))
    && (i.failed ==> chan' == chan)
  }

  /** The stream stops being readable only when there is nothing left to read or to report, or
      nobody to read for; it stays readable only behind a full channel. */
  ghost predicate InEntry(e: Entry, receiverOpen: bool, r: InPass) {
    var e' := r.entry;
    var i' := r.recv;
    && e' == e.(readable := e'.readable, inboundOpen := e'.inboundOpen)
    && (e'.inboundOpen ==> e.inboundOpen)
    && (!e.readable ==> e' == e)
    && (e.inboundOpen && !e'.inboundOpen ==> !receiverOpen || i'.failed || Finished(i'))
    && (e.readable && e'.inboundOpen && !e'.readable ==> i'.avail == [] && !i'.finArrived && i'.armed)
    && (e'.readable && !r.again ==> receiverOpen && |r.chan| >= INBOUND_CHANNEL_CAP)
    && (r.again ==> e'.readable && e'.inboundOpen)
  }

  /** No event is lost, and the Data event is armed again only with nothing left to read. */
  ghost predicate InEvents(e: Entry, i: RecvSide, r: InPass) {
    var i' := r.recv;
    && (!e.readable ==> i' == i)
    && i'.finArrived == i.finArrived && (i.failed ==> i'.failed)
    && (i.armed ==> i'.armed)
    && (i'.armed && !i.armed ==> i'.avail == [])
    && (r.again ==> i'.armed == i.armed)
    && (i'.events == i.events || i'.events == i.events.(fin := true))
  }

  /** What one visit, or a whole pass, keeps. */
  ghost predicate InEffect(e: Entry, chan: seq<bytes>, receiverOpen: bool, i: RecvSide, r: InPass) {
    && InBytes(chan, i, r.chan, r.recv)
    && InEntry(e, receiverOpen, r)
    && InEvents(e, i, r)
  }

  lemma MoveChunk(chan: seq<bytes>, avail: bytes, n: nat)
    requires n <= |avail|
    ensures Flatten(chan + [avail[..n]]) + avail[n..] == Flatten(chan) + avail
  {
    FlattenSnoc(chan, avail[..n]);
    assert avail == avail[..n] + avail[n..];
    assert Flatten(chan) + (avail[..n] + avail[n..]) == (Flatten(chan) + avail[..n]) + avail[n..];
  }

  lemma VisitEntry(e: Entry, chan: seq<bytes>, receiverOpen: bool, i: RecvSide, plan: seq<RecvAnswer>)
    ensures InEntry(e, receiverOpen, VisitIn(e, chan, receiverOpen, i, plan))
  {
  }

  lemma VisitEvents(e: Entry, chan: seq<bytes>, receiverOpen: bool, i: RecvSide, plan: seq<RecvAnswer>)
    ensures InEvents(e, i, VisitIn(e, chan, receiverOpen, i, plan))
  {
  }

  lemma VisitBytes(e: Entry, chan: seq<bytes>, receiverOpen: bool, i: RecvSide, plan: seq<RecvAnswer>)
    ensures var r := VisitIn(e, chan, receiverOpen, i, plan);
            InBytes(chan, i, r.chan, r.recv) && (r.again ==> |r.recv.avail| < |i.avail|)
  {
    var d := RecvResultOf(i, plan);
    var r := VisitIn(e, chan, receiverOpen, i, plan);
    if r.again {
      assert d.data == i.avail[..|d.data|];
      assert r.chan == chan + [i.avail[..|d.data|]];
      assert r.recv.avail == i.avail[|d.data|..];
      MoveChunk(chan, i.avail, |d.data|);
    } else {
      assert r.chan == chan && r.recv.avail == i.avail;
    }
  }

  lemma VisitConserves(e: Entry, chan: seq<bytes>, receiverOpen: bool, i: RecvSide, plan: seq<RecvAnswer>)
    ensures InEffect(e, chan, receiverOpen, i, VisitIn(e, chan, receiverOpen, i, plan))
  {
    VisitEntry(e, chan, receiverOpen, i, plan);
    VisitEvents(e, chan, receiverOpen, i, plan);
    VisitBytes(e, chan, receiverOpen, i, plan);
  }

  lemma InEffectChain(
      e: Entry, chan: seq<bytes>, receiverOpen: bool, i: RecvSide, r: InPass, r': InPass)
    requires InEffect(e, chan, receiverOpen, i, r) && r.again
    requires InEffect(r.entry, r.chan, receiverOpen, r.recv, r') && !r'.again
    ensures InEffect(e, chan, receiverOpen, i, r')
  {
  }

  lemma {:induction false} PumpInConserves(
      e: Entry, chan: seq<bytes>, receiverOpen: bool, i: RecvSide, plan: seq<RecvAnswer>)
    ensures InEffect(e, chan, receiverOpen, i, PumpIn(e, chan, receiverOpen, i, plan))
    ensures !PumpIn(e, chan, receiverOpen, i, plan).again
    decreases |i.avail|
  {
    var r := VisitIn(e, chan, receiverOpen, i, plan);
    VisitConserves(e, chan, receiverOpen, i, plan);
    VisitBytes(e, chan, receiverOpen, i, plan);
    if r.again {
      PumpInConserves(r.entry, r.chan, receiverOpen, r.recv, r.plan);
      InEffectChain(e, chan, receiverOpen, i, r, PumpIn(e, chan, receiverOpen, i, plan));
    }
  }

  // ---------------------------------------------------------------- the QuicStream adapter

  datatype Poll<+T> = Ready(value: T) | Pending

  datatype ReadPass = ReadPass(out: Poll<bytes>, rxBuf: bytes, rxEof: bool, chan: seq<bytes>, popped: nat)

  /** `poll_read` into a buffer with `room` bytes left. */
  function PollRead(rxBuf: bytes, rxEof: bool, chan: seq<bytes>, senderOpen: bool, room: nat): ReadPass
    decreases |chan|
  {
    if |rxBuf| > 0 then
      var n := Min(room, |rxBuf|);
      ReadPass(Ready(rxBuf[..n]), rxBuf[n..], rxEof, chan, 0)
    else if rxEof then
      ReadPass(Ready([]), rxBuf, true, chan, 0)
    else if |chan| > 0 then
      var r := PollRead(chan[0], false, chan[1..], senderOpen, room);
      r.(popped := r.popped + 1)
    else if senderOpen then
      ReadPass(Pending, rxBuf, false, chan, 0)
    else
      ReadPass(Ready([]), rxBuf, true, chan, 0)
  }

  /** A read returns the next bytes in order; with room it returns none only at the end, which is
      sticky and comes after every byte; it waits only for a live sender with nothing queued. */
  lemma {:induction false} PollReadConserves(rxBuf: bytes, rxEof: bool, chan: seq<bytes>, senderOpen: bool, room: nat)
    requires rxEof ==> rxBuf == [] && chan == []
    ensures var r := PollRead(rxBuf, rxEof, chan, senderOpen, room);
            && (if r.out.Ready? then r.out.value else []) + r.rxBuf + Flatten(r.chan) == rxBuf + Flatten(chan)
            && (rxEof ==> r.rxEof)
            && (r.rxEof ==> r.rxBuf == [] && r.chan == [] && (rxEof || !senderOpen))
            && (room > 0 && r.out == Ready([]) ==> r.rxEof)
            && (r.out.Pending? ==> senderOpen && r.rxBuf == [] && r.chan == [] && !r.rxEof)
            && r.popped + |r.chan| == |chan|
            && (r.out.Ready? ==> |r.out.value| <= room)
            && (r.out.Ready? && |r.out.value| < room ==> r.rxBuf == [])
    decreases |chan|
  {
    if |rxBuf| > 0 {
      var n := Min(room, |rxBuf|);
      assert rxBuf == rxBuf[..n] + rxBuf[n..];
      Assoc(rxBuf[..n], rxBuf[n..], Flatten(chan));
    } else if !rxEof && |chan| > 0 {
      PollReadConserves(chan[0], false, chan[1..], senderOpen, room);
    }
  }
}
