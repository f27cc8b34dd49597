/**
 The event loop gets on: between two waits there is always a next step, and each step leaves less to do.
 With `EventLoopTheorems`, which says what is left undone when the loop waits, no work is left lying.
 */
module Progress {
  import opened Bytes
  import opened StreamCore
  import opened StreamModel
  import opened EventLoop
  import opened EventLoopProof
  import opened EventLoopTheorems

  function Todo(phase: Phase): set<Id> {
    match phase
    case Poll => {}
    case PumpIn(todo) => todo
    case PumpOut(todo) => todo
    case Reap(todo) => todo
  }

  /** What a pump has still to visit is there to be visited. */
  ghost predicate TodoLive(s: State) {
    s.pc.Turn? ==> forall id :: id in Todo(s.pc.phase) ==> id in s.streams && id.key == s.pc.k && s.streams[id].slot.Live?
  }

  lemma TodoInPump(s: State, i: Id, u: PumpAction)
    requires TodoLive(s) && Enabled(s, Pump(i, u))
    ensures TodoLive(DoPump(s, i, u))
  {
    var t := DoPump(s, i, u);
    forall id | id in Todo(t.pc.phase)
      ensures id in t.streams && id.key == t.pc.k && t.streams[id].slot.Live?
    {
      assert id in Todo(s.pc.phase);
    }
  }

  lemma TodoInBridge(s: State, i: Id, b: BridgeAction)
    requires TodoLive(s) && Enabled(s, Bridge(i, b))
    ensures TodoLive(DoBridge(s, i, b))
  {
  }

  lemma TodoInNext(s: State, t: TurnAction)
    requires TurnEnabled(s, t)
    ensures TodoLive(DoNext(s, t))
  {
  }

  lemma TodoStep(s: State, a: Action)
    requires TodoLive(s) && Enabled(s, a)
    ensures TodoLive(Apply(s, a))
  {
    match a
    case Pump(i, u) => TodoInPump(s, i, u);
    case Bridge(i, b) => TodoInBridge(s, i, b);
    case Next(t) => TodoInNext(s, t);
    case _ =>
  }

  lemma {:induction false} TodoRun(s: State, run: seq<Action>)
    requires TodoLive(s) && Possible(s, run)
    ensures TodoLive(After(s, run))
    decreases |run|
  {
    if run != [] {
      TodoStep(s, run[0]);
      TodoRun(Apply(s, run[0]), run[1..]);
    }
  }

  // ---------------------------------------------------------------- never stuck

  /** A step of the loop itself between two waits. */
  predicate OfLoop(a: Action) {
    a.PacketDone? || a.Event? || a.Next? || a.Pump?
  }

  /** The event that `h3.poll` reports next on a stream that has one. */
  function NextEvent(ev: Events): EventAction {
    if ev.headers then OnHeaders(true)
    else if ev.data then OnData
    else if ev.fin then OnFinished
    else OnReset
  }

  lemma PollGoesOn(s: State) returns (a: Action)
    requires s.pc.Turn? && s.pc.phase.Poll?
    ensures OfLoop(a) && Enabled(s, a)
  {
    if Quiet(s, s.pc.k) {
      a := Next(PollDone);
    } else {
      var id :| id in s.streams && id.key == s.pc.k && s.streams[id].recv.events != NO_EVENTS;
      a := Event(id, NextEvent(s.streams[id].recv.events));
    }
  }

  lemma PumpGoesOn(s: State) returns (a: Action)
    requires TodoLive(s) && s.pc.Turn? && !s.pc.phase.Poll?
    ensures OfLoop(a) && Enabled(s, a)
  {
    if Todo(s.pc.phase) != {} {
      var id :| id in Todo(s.pc.phase);
      match s.pc.phase {
        case PumpIn(_) => a := Pump(id, InOne([]));
        case PumpOut(_) => a := Pump(id, OutOne([]));
        case Reap(_) => a := Pump(id, ReapOne);
      }
    } else {
      match s.pc.phase {
        case PumpIn(_) => a := Next(InDone);
        case PumpOut(_) => a := Next(OutDone);
        case Reap(_) =>
          var k :| k in s.pc.rest || s.pc.rest == {};
          a := Next(TurnDone(k));
      }
    }
  }

  /** In every reachable state in which the loop neither waits nor has returned, it has a next step of its
      own, whatever bridges and network do. */
  lemma NeverStuck(s: State, run: seq<Action>) returns (a: Action)
    requires Initial(s) && Possible(s, run)
    requires !After(s, run).pc.Parked? && !After(s, run).pc.Exited?
    ensures OfLoop(a) && Enabled(After(s, run), a)
  {
    TodoRun(s, run);
    var t := After(s, run);
    if t.pc.Receiving? {
      a := PacketDone;
    } else if t.pc.phase.Poll? {
      a := PollGoesOn(t);
    } else {
      a := PumpGoesOn(t);
    }
  }

  /** A waiting loop can be woken by whatever is there to wake it: a message, a permit, a packet or the
      timer of any of its connections. */
  lemma WakesForCause(s: State)
    requires s.pc.Parked?
    ensures s.egress != [] ==> Enabled(s, Wake(WakeEgress))
    ensures s.permit ==> exists k :: Enabled(s, Wake(WakeCredit(k)))
    ensures forall k :: k in s.conns ==> Enabled(s, Wake(WakePacket(k))) && Enabled(s, Wake(WakeTimer(k)))
  {
    if s.permit {
      var k :| k in s.conns || s.conns == {};
      assert Enabled(s, Wake(WakeCredit(k)));
    }
  }

  // ---------------------------------------------------------------- each step leaves less to do

  /** How far the loop is in servicing one connection. */
  function Rank(phase: Phase): nat {
    match phase
    case Poll => 3
    case PumpIn(_) => 2
    case PumpOut(_) => 1
    case Reap(_) => 0
  }

  function EventCount(ev: Events): nat {
    (if ev.headers then 1 else 0) + (if ev.data then 1 else 0) + (if ev.fin then 1 else 0) + (if ev.reset then 1 else 0)
  }

  /** An event handled is an event less, and no other stream has one more. */
  lemma EventGetsOn(s: State, i: Id, e: EventAction)
    requires Enabled(s, Event(i, e))
    ensures var t := Apply(s, Event(i, e));
            && EventCount(t.streams[i].recv.events) < EventCount(s.streams[i].recv.events)
            && t.streams == s.streams[i := t.streams[i]] && t.pc == s.pc
  {
  }

  /** A visit takes the stream off the list, or takes bytes from the library, of which there are finitely
      many: while a connection is serviced nothing arrives. */
  lemma VisitGetsOn(s: State, i: Id, u: PumpAction)
    requires Enabled(s, Pump(i, u))
    ensures var t := Apply(s, Pump(i, u));
            && t.pc.Turn? && t.pc.k == s.pc.k && t.pc.rest == s.pc.rest && Rank(t.pc.phase) == Rank(s.pc.phase)
            && t.streams == s.streams[i := t.streams[i]]
            && (Todo(t.pc.phase) == Todo(s.pc.phase) - {i} ||
                (t.pc == s.pc && |t.streams[i].recv.avail| < |s.streams[i].recv.avail|))
  {
    var st := s.streams[i];
    if u.InOne? {
      VisitBytes(st.slot.entry, st.side.chan, st.side.task == Alive, st.recv, u.answers);
    }
  }

  /** A stage that ends gives way to the next, and the last one to the next connection or to the wait. */
  lemma StageGetsOn(s: State, n: TurnAction)
    requires TurnEnabled(s, n)
    ensures var t := DoNext(s, n);
            || (t.pc.Turn? && t.pc.k == s.pc.k && t.pc.rest == s.pc.rest && Rank(t.pc.phase) + 1 == Rank(s.pc.phase))
            || (t.pc.Turn? && t.pc.k in s.pc.rest && t.pc.rest == s.pc.rest - {t.pc.k} && t.pc.phase.Poll? &&
                Rank(s.pc.phase) == 0)
            || (t.pc.Parked? && s.pc.rest == {} && Rank(s.pc.phase) == 0)
    ensures DoNext(s, n).streams == s.streams
  {
  }

  /** A bridge step takes nothing off the loop's list and adds nothing to it. */
  lemma BridgeLeavesLoop(s: State, i: Id, b: BridgeAction)
    requires Enabled(s, Bridge(i, b))
    ensures var t := Apply(s, Bridge(i, b));
            t.pc == s.pc && t.streams == s.streams[i := t.streams[i]] && t.streams[i].recv == s.streams[i].recv
  {
  }

  // ---------------------------------------------------------------- bridges

  /** A bridge can always go on: it writes and shuts down when there is room, it drops its stream whenever
      it is not in the middle of a read, and after that it gives its close notice, once there is room or
      the loop has gone. */
  lemma BridgeGoesOn(s: State, i: Id, d: bytes)
    requires i in s.streams
    ensures var st := s.streams[i];
            var room := !s.pc.Exited? && |s.egress| < 256;
            && (st.side.task == Alive && !st.side.shutdownSent ==>
                  (Enabled(s, Bridge(i, Write(d))) <==> room) &&
                  (Enabled(s, Bridge(i, Shutdown)) <==> room || s.pc.Exited?))
            && (st.side.task == Alive ==> Enabled(s, Bridge(i, if st.side.credit then Notify else DropStream)))
            && (st.side.task == Dropped ==> (Enabled(s, Bridge(i, CloseNotice)) <==> room || s.pc.Exited?))
            && (Enabled(s, Bridge(i, CloseNotice)) ==> Apply(s, Bridge(i, CloseNotice)).streams[i].side.task == Ended)
  {
  }
}
