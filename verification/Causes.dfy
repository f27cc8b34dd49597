/**
 What takes a stream from its bridge, and what gives it one: over every run of an event loop, a stream is
 dropped only by a reset, a refusal or the end of its connection; after that its bridge hears no more; and
 a bridge runs exactly for the streams that were accepted.
 */
module Causes {
  import opened Bytes
  import opened StreamCore
  import opened StreamModel
  import opened EventLoop
  import opened EventLoopProof
  import opened EventLoopTheorems
  import opened Observation
  import opened Tunnel

  /** A reset or refusal of stream `id`, the end of its connection or of the loop, or an open whose
      requester has gone. */
  predicate Cuts(a: Action, id: Id) {
    match a
    case Park(ConnClose(k)) => k == id.key
    case Park(Exit) => true
    case Park(OpenStream(i, wanted)) => i == id && !wanted
    case Event(i, OnHeaders(accept)) => i == id && !accept
    case Event(i, OnReset) => i == id
    case _ => false
  }

  /** A call of the library on stream `id` that may answer with a transport error. */
  predicate MayFail(a: Action, id: Id) {
    match a
    case Pump(i, OutOne(sends)) => i == id && Failed in sends
    case Pump(i, InOne(answers)) => i == id && Broken in answers
    case _ => false
  }

  /** The stream has been dropped before its bridge was done. */
  predicate WasCut(s: State, id: Id) {
    id in s.streams && s.streams[id].slot.Cut?
  }

  // ---------------------------------------------------------------- why a stream is cut

  /** No visit of a pump and no step of a bridge drops a stream before its time. */
  lemma PumpCutsNothing(s: State, i: Id, u: PumpAction, id: Id)
    requires Enabled(s, Pump(i, u))
    ensures WasCut(DoPump(s, i, u), id) ==> WasCut(s, id)
  {
  }

  lemma BridgeCutsNothing(s: State, i: Id, b: BridgeAction, id: Id)
    requires Enabled(s, Bridge(i, b))
    ensures WasCut(DoBridge(s, i, b), id) ==> WasCut(s, id)
  {
  }

  lemma WakeCutsNothing(s: State, w: WakeAction, id: Id)
    requires WakeEnabled(s, w)
    ensures WasCut(DoWake(s, w), id) ==> WasCut(s, id)
  {
  }

  lemma CutStep(s: State, a: Action, id: Id)
    requires Enabled(s, a) && WasCut(Apply(s, a), id) && !WasCut(s, id)
    ensures Cuts(a, id)
  {
    match a
    case Wake(w) => WakeCutsNothing(s, w, id);
    case Pump(i, u) => PumpCutsNothing(s, i, u, id);
    case Bridge(i, b) => BridgeCutsNothing(s, i, b, id);
    case _ =>
  }

  /** A stream is cut only if the run holds a reset or a refusal of this very stream, the end of its own
      connection or of the loop, or an open nobody waited for. Data and Finished events never cut, and
      closing one connection cuts no stream of another. */
  lemma {:induction false} CutHasCause(s: State, run: seq<Action>, id: Id) returns (i: nat)
    requires Possible(s, run) && WasCut(After(s, run), id) && !WasCut(s, id)
    ensures i < |run| && Cuts(run[i], id)
    decreases |run|
  {
    var t := Apply(s, run[0]);
    if WasCut(t, id) {
      CutStep(s, run[0], id);
      i := 0;
    } else {
      i := CutHasCause(t, run[1..], id);
      i := i + 1;
    }
  }

  // ---------------------------------------------------------------- what follows

  /** The bridge of the stream gets nothing any more, or there will never be one. */
  predicate Silent(s: State, id: Id) {
    id in s.streams &&
    match s.streams[id].slot
    case Unopened => !s.streams[id].recv.events.headers || id.key !in s.conns
    case Live(e) => !e.inboundOpen
    case _ => true
  }

  lemma CutSilences(s: State, a: Action, id: Id)
    requires Enabled(s, a) && Cuts(a, id) && id in Apply(s, a).streams
    ensures Silent(Apply(s, a), id)
  {
  }

  lemma SilentInPump(s: State, i: Id, u: PumpAction, id: Id)
    requires Enabled(s, Pump(i, u)) && Silent(s, id)
    ensures Silent(DoPump(s, i, u), id)
  {
    if i == id && u.InOne? {
      var st := s.streams[id];
      VisitEntry(st.slot.entry, st.side.chan, st.side.task == Alive, st.recv, u.answers);
    }
    if i == id && u.OutOne? {
      PumpOutConserves(s.streams[id].slot.entry, s.streams[id].send, u.sends);
    }
  }

  lemma SilentInBridge(s: State, i: Id, b: BridgeAction, id: Id)
    requires Enabled(s, Bridge(i, b)) && Silent(s, id)
    ensures Silent(DoBridge(s, i, b), id)
  {
  }

  lemma SilentInPark(s: State, p: ParkAction, id: Id)
    requires ParkEnabled(s, p) && Silent(s, id)
    ensures Silent(DoPark(s, p), id)
  {
  }

  lemma SilentInWake(s: State, w: WakeAction, id: Id)
    requires WakeEnabled(s, w) && Silent(s, id)
    ensures Silent(DoWake(s, w), id)
  {
  }

  lemma SilentInNet(s: State, i: Id, n: NetAction, id: Id)
    requires i in s.streams && NetEnabled(s.streams[i], n) && Silent(s, id)
    ensures Silent(Put(s, i, OnNet(s.streams[i], n)), id)
  {
  }

  lemma SilentInEvent(s: State, i: Id, e: EventAction, id: Id)
    requires i in s.streams && i.key in s.conns && EventEnabled(s.streams[i], e) && Silent(s, id)
    ensures Silent(Put(s, i, OnEvent(s.streams[i], e)), id)
  {
  }

  lemma SilentStays(s: State, a: Action, id: Id)
    requires Inv(s) && Enabled(s, a) && Silent(s, id)
    ensures Silent(Apply(s, a), id)
  {
    match a
    case Park(p) => SilentInPark(s, p, id);
    case Wake(w) => SilentInWake(s, w, id);
    case NetOpen(i) => assert Put(s, i, REQUESTED).streams[id] == s.streams[id];
    case Net(i, n) => SilentInNet(s, i, n, id);
    case PacketDone =>
    case Event(i, e) => SilentInEvent(s, i, e, id);
    case Next(t) => assert DoNext(s, t).streams == s.streams;
    case Pump(i, u) => SilentInPump(s, i, u, id);
    case Bridge(i, b) => SilentInBridge(s, i, b, id);
  }

  lemma {:induction false} SilentForGood(s: State, run: seq<Action>, id: Id)
    requires Inv(s) && Possible(s, run) && Silent(s, id)
    ensures Silent(After(s, run), id)
    decreases |run|
  {
    if run != [] {
      SilentStays(s, run[0], id);
      StepKeepsInv(s, run[0]);
      SilentForGood(Apply(s, run[0]), run[1..], id);
    }
  }

  /** After a reset, a refusal or the end of its connection, whatever happens later, the sender of the
      stream is closed: its bridge reads what the channel still holds and then EOF. */
  lemma CutIsForGood(s: State, run: seq<Action>, a: Action, more: seq<Action>, id: Id)
    requires Initial(s) && Possible(s, run)
    requires var t := After(s, run);
             Enabled(t, a) && Cuts(a, id) && id in Apply(t, a).streams && Possible(Apply(t, a), more)
    ensures var t := After(Apply(After(s, run), a), more);
            id in t.streams && !SenderOpen(t.streams[id])
  {
    var t := After(s, run);
    InitialInv(s);
    RunKeepsInv(s, run);
    CutSilences(t, a, id);
    StepKeepsInv(t, a);
    SilentForGood(Apply(t, a), more, id);
  }

  // ---------------------------------------------------------------- which streams get a bridge

  /** The client opens the stream for a requester that waits, or the server accepts its headers. */
  predicate Starts(a: Action, id: Id) {
    a == Park(OpenStream(id, true)) || (a == Event(id, OnHeaders(true)) && !IsClientKey(id.key))
  }

  predicate Bridged(s: State, id: Id) {
    id in s.streams && s.streams[id].side.task != Absent
  }

  /** The client's streams are open from the start; on the server, headers wait only on a stream that is
      not open yet. */
  predicate Placed(id: Id, st: Stream) {
    if IsClientKey(id.key) then !st.slot.Unopened? else st.recv.events.headers ==> st.slot.Unopened?
  }

  ghost predicate AllPlaced(s: State) {
    forall id :: id in s.streams ==> Placed(id, s.streams[id])
  }

  lemma PlacedInPump(s: State, i: Id, u: PumpAction)
    requires Enabled(s, Pump(i, u)) && Placed(i, s.streams[i])
    ensures Placed(i, OnPump(s.streams[i], u))
    ensures OnPump(s.streams[i], u).side.task == s.streams[i].side.task
  {
    if u.InOne? {
      var st := s.streams[i];
      VisitEvents(st.slot.entry, st.side.chan, st.side.task == Alive, st.recv, u.answers);
    }
  }

  lemma PlacedInBridge(s: State, i: Id, b: BridgeAction)
    requires Inv(s) && Enabled(s, Bridge(i, b)) && Placed(i, s.streams[i])
    ensures Placed(i, DoBridge(s, i, b).streams[i])
    ensures s.streams[i].side.task != Absent && DoBridge(s, i, b).streams[i].side.task != Absent
  {
    assert StreamInv(s.streams[i], Proj(s.egress, i));
  }

  lemma PlacedInEvent(s: State, i: Id, e: EventAction)
    requires Inv(s) && i in s.streams && EventEnabled(s.streams[i], e) && Placed(i, s.streams[i])
    ensures var st := s.streams[i];
            var st' := OnEvent(st, e);
            Placed(i, st') &&
            (st'.side.task != Absent <==> st.side.task != Absent || (e == OnHeaders(true) && !IsClientKey(i.key)))
  {
    assert StreamInv(s.streams[i], Proj(s.egress, i));
  }

  /** One stream changes. */
  lemma BridgedPut(s: State, s': State, i: Id, st: Stream, id: Id)
    requires AllPlaced(s) && s'.streams == s.streams[i := st] && Placed(i, st)
    ensures AllPlaced(s')
    ensures Bridged(s', id) <==> if id == i then st.side.task != Absent else Bridged(s, id)
  {
  }

  lemma BridgedInPark(s: State, p: ParkAction, id: Id)
    requires AllPlaced(s) && ParkEnabled(s, p)
    ensures AllPlaced(DoPark(s, p))
    ensures Bridged(DoPark(s, p), id) <==> Bridged(s, id) || p == OpenStream(id, true)
  {
  }

  lemma BridgedInWake(s: State, w: WakeAction, id: Id)
    requires AllPlaced(s) && WakeEnabled(s, w)
    ensures AllPlaced(DoWake(s, w))
    ensures Bridged(DoWake(s, w), id) <==> Bridged(s, id)
  {
  }

  lemma BridgedInNet(s: State, i: Id, n: NetAction, id: Id)
    requires AllPlaced(s) && i in s.streams && NetEnabled(s.streams[i], n)
    requires n.NetHeaders? ==> IsClientKey(i.key)
    ensures AllPlaced(Put(s, i, OnNet(s.streams[i], n)))
    ensures Bridged(Put(s, i, OnNet(s.streams[i], n)), id) <==> Bridged(s, id)
  {
    BridgedPut(s, Put(s, i, OnNet(s.streams[i], n)), i, OnNet(s.streams[i], n), id);
  }

  lemma BridgedInEvent(s: State, i: Id, e: EventAction, id: Id)
    requires Inv(s) && AllPlaced(s) && i in s.streams && EventEnabled(s.streams[i], e)
    ensures AllPlaced(Put(s, i, OnEvent(s.streams[i], e)))
    ensures Bridged(Put(s, i, OnEvent(s.streams[i], e)), id) <==> Bridged(s, id) || Starts(Event(i, e), id)
  {
    PlacedInEvent(s, i, e);
    BridgedPut(s, Put(s, i, OnEvent(s.streams[i], e)), i, OnEvent(s.streams[i], e), id);
  }

  lemma BridgedInPump(s: State, i: Id, u: PumpAction, id: Id)
    requires AllPlaced(s) && Enabled(s, Pump(i, u))
    ensures AllPlaced(DoPump(s, i, u)) && (Bridged(DoPump(s, i, u), id) <==> Bridged(s, id))
  {
    PlacedInPump(s, i, u);
    BridgedPut(s, DoPump(s, i, u), i, OnPump(s.streams[i], u), id);
  }

  lemma BridgedInBridge(s: State, i: Id, b: BridgeAction, id: Id)
    requires Inv(s) && AllPlaced(s) && Enabled(s, Bridge(i, b))
    ensures AllPlaced(DoBridge(s, i, b)) && (Bridged(DoBridge(s, i, b), id) <==> Bridged(s, id))
  {
    PlacedInBridge(s, i, b);
    BridgedPut(s, DoBridge(s, i, b), i, DoBridge(s, i, b).streams[i], id);
  }

  predicate OnLoop(a: Action) {
    a.Park? || a.Wake? || a.NetOpen? || a.PacketDone? || a.Next?
  }

  lemma BridgedInLoop(s: State, a: Action, id: Id)
    requires AllPlaced(s) && Enabled(s, a) && OnLoop(a)
    ensures AllPlaced(Apply(s, a))
    ensures Bridged(Apply(s, a), id) <==> Bridged(s, id) || Starts(a, id)
  {
    match a
    case Park(p) => BridgedInPark(s, p, id);
    case Wake(w) => BridgedInWake(s, w, id);
    case NetOpen(i) => BridgedPut(s, Put(s, i, REQUESTED), i, REQUESTED, id);
    case Next(n) => assert DoNext(s, n).streams == s.streams;
    case _ =>
  }

  lemma BridgedStep(s: State, a: Action, id: Id)
    requires Inv(s) && AllPlaced(s) && Enabled(s, a)
    ensures AllPlaced(Apply(s, a))
    ensures Bridged(Apply(s, a), id) <==> Bridged(s, id) || Starts(a, id)
  {
    match a
    case Net(i, n) => BridgedInNet(s, i, n, id);
    case Event(i, e) => BridgedInEvent(s, i, e, id);
    case Pump(i, u) => BridgedInPump(s, i, u, id);
    case Bridge(i, b) => BridgedInBridge(s, i, b, id);
    case _ => BridgedInLoop(s, a, id);
  }

  lemma {:induction false} BridgedRun(s: State, run: seq<Action>, id: Id)
    requires Inv(s) && AllPlaced(s) && Possible(s, run)
    ensures Bridged(After(s, run), id) <==> Bridged(s, id) || exists i :: 0 <= i < |run| && Starts(run[i], id)
    decreases |run|
  {
    if run != [] {
      BridgedStep(s, run[0], id);
      StepKeepsInv(s, run[0]);
      BridgedRun(Apply(s, run[0]), run[1..], id);
      assert forall i :: 0 <= i < |run[1..]| ==> run[1..][i] == run[i + 1];
      assert forall i :: 1 <= i < |run| ==> run[i] == run[1..][i - 1];
    }
  }

  /** A stream gets a bridge if and only if the client opened it for a requester that waits, or the server
      accepted its headers; refused headers never lead to one. */
  lemma BridgeIffAccepted(s: State, run: seq<Action>, id: Id)
    requires Initial(s) && Possible(s, run)
    ensures Bridged(After(s, run), id) <==> exists i :: 0 <= i < |run| && Starts(run[i], id)
  {
    InitialInv(s);
    BridgedRun(s, run, id);
  }

  // ---------------------------------------------------------------- runs in which nothing goes wrong

  predicate Breaks(a: Action, id: Id) {
    Cuts(a, id) || MayFail(a, id)
  }

  lemma {:induction false} DrainFailure(e: Entry, o: SendSide, plan: seq<SendAnswer>)
    requires Failed !in plan && !o.failed
    ensures !DrainPending(e, o, plan).send.failed && Failed !in DrainPending(e, o, plan).plan
    decreases |e.pending|
  {
    if e.pending != [] && Answer(o, |e.pending[0]|, plan) == Took(|e.pending[0]|) {
      DrainFailure(e.(pending := e.pending[1..]), SendBody(o, e.pending[0], false, plan), Later(plan));
    }
  }

  /** A half of a stream fails only if the library says so. */
  lemma PumpFailure(st: Stream, u: PumpAction)
    requires st.slot.Live? && !st.send.failed && !st.recv.failed
    requires u.OutOne? ==> Failed !in u.sends
    requires u.InOne? ==> Broken !in u.answers
    ensures !OnPump(st, u).send.failed && !OnPump(st, u).recv.failed
  {
    if u.OutOne? {
      DrainFailure(st.slot.entry, st.send, u.sends);
    }
  }

  predicate HalvesWork(s: State, id: Id) {
    id in s.streams ==> !s.streams[id].send.failed && !s.streams[id].recv.failed
  }

  lemma HalvesInBridge(s: State, i: Id, b: BridgeAction, id: Id)
    requires Enabled(s, Bridge(i, b)) && HalvesWork(s, id)
    ensures HalvesWork(DoBridge(s, i, b), id)
  {
  }

  lemma HalvesInWake(s: State, w: WakeAction, id: Id)
    requires WakeEnabled(s, w) && HalvesWork(s, id)
    ensures HalvesWork(DoWake(s, w), id)
  {
  }

  lemma HalvesInPump(s: State, i: Id, u: PumpAction, id: Id)
    requires Enabled(s, Pump(i, u)) && HalvesWork(s, id) && !MayFail(Pump(i, u), id)
    ensures HalvesWork(DoPump(s, i, u), id)
  {
    if i == id {
      PumpFailure(s.streams[i], u);
    }
  }

  lemma HalvesStep(s: State, a: Action, id: Id)
    requires Enabled(s, a) && HalvesWork(s, id) && !MayFail(a, id)
    ensures HalvesWork(Apply(s, a), id)
  {
    match a
    case Pump(i, u) => HalvesInPump(s, i, u, id);
    case Bridge(i, b) => HalvesInBridge(s, i, b, id);
    case Wake(w) => HalvesInWake(s, w, id);
    case _ =>
  }

  lemma BrokenStep(s: State, a: Action, id: Id)
    requires Enabled(s, a) && !Breaks(a, id) && !ViewOn(s, id).broken
    ensures !ViewOn(Apply(s, a), id).broken
  {
    HalvesStep(s, a, id);
    if WasCut(Apply(s, a), id) {
      CutStep(s, a, id);
    }
  }

  /** What a step does to the stream at both of its ends, `c` on the client and `s` on the server. */
  predicate BreaksEither(step: Step, c: Id, s: Id) {
    match step
    case AtClient(a) => Breaks(a, c)
    case AtServer(a) => Breaks(a, s)
  }

  /** No step of the run resets or refuses the stream at either end, ends its connection or one of the
      loops, or brings a transport error on it. */
  predicate Clean(run: seq<Step>, c: Id, s: Id) {
    forall i :: 0 <= i < |run| ==> !BreaksEither(run[i], c, s)
  }

  lemma {:induction false} CleanStaysWhole(t: Tunnel, run: seq<Step>, n: nat)
    requires TunnelInv(t) && TunnelPossible(t, run) && Clean(run, Id(t.ck, n), Id(t.sk, n))
    requires !ViewOn(t.client, Id(t.ck, n)).broken && !ViewOn(t.server, Id(t.sk, n)).broken
    ensures var u := TunnelAfter(t, run);
            !ViewOn(u.client, Id(t.ck, n)).broken && !ViewOn(u.server, Id(t.sk, n)).broken
    decreases |run|
  {
    if run != [] {
      var next := TunnelApply(t, run[0]);
      match run[0] {
        case AtClient(a) => BrokenStep(t.client, a, Id(t.ck, n));
        case AtServer(a) => BrokenStep(t.server, a, Id(t.sk, n));
      }
      TunnelKeepsInv(t, run[0]);
      CleanStaysWhole(next, run[1..], n);
    }
  }

  /** What a bridge has read is a prefix of what the other wrote; and once it has seen EOF, the other had
      shut down and it has read everything. */
  predicate Delivered(p: Pipe) {
    p.read <= p.written && (p.eof ==> p.shut && p.read == p.written)
  }

  /** End to end, with nothing excused but what the run itself shows: if no step resets or refuses the
      stream, ends its connection or brings a transport error on it, both directions deliver. */
  lemma CleanRunDelivers(t: Tunnel, run: seq<Step>, n: nat)
    requires TunnelStart(t) && TunnelPossible(t, run) && Clean(run, Id(t.ck, n), Id(t.sk, n))
    ensures Delivered(ToServer(TunnelAfter(t, run), n)) && Delivered(ToClient(TunnelAfter(t, run), n))
  {
    InitialInv(t.client);
    InitialInv(t.server);
    TunnelRunKeeps(t, run);
    CleanStaysWhole(t, run, n);
    BytesComeThrough(t, run, n);
  }
}
