/**
 How the calls of `QuicImpl` sit in the step system of `EventLoop`: one `poll_read` is a run of bridge
 steps, and one stream's share of `pump_inbound` a run of visits. So what is proved of every run of the
 step system covers loops and bridges that make these calls, whatever comes between their steps.
 */
module Adapter {
  import opened Bytes
  import opened StreamCore
  import opened StreamModel
  import opened EventLoop
  import opened EventLoopTheorems

  // ---------------------------------------------------------------- poll_read

  /** The bridge steps of one `poll_read`. */
  function ReadSteps(id: Id, rxBuf: bytes, rxEof: bool, chan: seq<bytes>, senderOpen: bool, room: nat): seq<Action>
    decreases |chan|
  {
    if rxBuf != [] then [Bridge(id, Read(room))]
    else if rxEof then []
    else if chan != [] then
      [Bridge(id, RecvChunk)] + ([Bridge(id, Notify)] + ReadSteps(id, chan[0], false, chan[1..], senderOpen, room))
    else if senderOpen then []
    else [Bridge(id, ReadEof)]
  }

  /** What `PollRead` says the call does, as a state of the step system. */
  function AfterPoll(s: State, id: Id, room: nat): State
    requires id in s.streams
  {
    var st := s.streams[id];
    var side := st.side;
    var p := PollRead(side.rxBuf, side.rxEof, side.chan, SenderOpen(st), room);
    var got := if p.out.Ready? then p.out.value else [];
    Put(s, id, st.(side := side.(rxBuf := p.rxBuf, rxEof := p.rxEof, chan := p.chan),
                   hist := st.hist.(read := st.hist.read + got))).(permit := s.permit || p.popped > 0)
  }

  lemma OneStep(s: State, a: Action)
    requires Enabled(s, a)
    ensures Possible(s, [a]) && After(s, [a]) == Apply(s, a)
  {
    assert [a][1..] == [];
    assert Possible(Apply(s, a), []) && After(Apply(s, a), []) == Apply(s, a);
  }

  lemma StepFirst(s: State, a: Action, rest: seq<Action>)
    requires Enabled(s, a) && Possible(Apply(s, a), rest)
    ensures Possible(s, [a] + rest) && After(s, [a] + rest) == After(Apply(s, a), rest)
  {
    assert ([a] + rest)[1..] == rest;
  }

  /** The head of the channel moves to `rx_buf` and the loop is signalled. */
  function Popped(s: State, id: Id): State
    requires id in s.streams && s.streams[id].side.chan != []
  {
    var st := s.streams[id];
    Put(s, id, st.(side := st.side.(rxBuf := st.side.chan[0], chan := st.side.chan[1..]))).(permit := true)
  }

  lemma PopSteps(s: State, id: Id)
    requires id in s.streams && Reading(s.streams[id])
    requires var side := s.streams[id].side; side.rxBuf == [] && !side.rxEof && side.chan != []
    ensures var a, b := Bridge(id, RecvChunk), Bridge(id, Notify);
            Enabled(s, a) && Enabled(Apply(s, a), b) && Apply(Apply(s, a), b) == Popped(s, id)
  {
    var t := Apply(s, Bridge(id, RecvChunk));
    var st := s.streams[id];
    assert t.streams[id] == Pop(st);
    assert Apply(t, Bridge(id, Notify)).streams == Popped(s, id).streams;
  }

  lemma PopThenPoll(s: State, id: Id, room: nat)
    requires id in s.streams
    requires var side := s.streams[id].side; side.rxBuf == [] && !side.rxEof && side.chan != []
    ensures AfterPoll(Popped(s, id), id, room) == AfterPoll(s, id, room)
  {
    var st, t := s.streams[id], Popped(s, id);
    var p := PollRead(st.side.chan[0], false, st.side.chan[1..], SenderOpen(st), room);
    assert PollRead([], false, st.side.chan, SenderOpen(st), room) == p.(popped := p.popped + 1);
    var v := AfterPoll(s, id, room).streams[id];
    assert AfterPoll(t, id, room).streams[id] == v;
    assert t.streams[id := v] == s.streams[id := v];
  }

  /** A poll that finds bytes in `rx_buf`, or the end. */
  lemma LastStep(s: State, id: Id, room: nat)
    requires id in s.streams && Reading(s.streams[id])
    requires var side := s.streams[id].side;
             side.rxBuf != [] || (!side.rxEof && side.chan == [] && !SenderOpen(s.streams[id]))
    ensures var a := Bridge(id, if s.streams[id].side.rxBuf != [] then Read(room) else ReadEof);
            Enabled(s, a) && Apply(s, a) == AfterPoll(s, id, room)
  {
    var st := s.streams[id];
    assert st.hist.read + [] == st.hist.read;
  }

  /** A poll that finds nothing to do. */
  lemma NoStep(s: State, id: Id, room: nat)
    requires id in s.streams
    requires var side := s.streams[id].side;
             side.rxBuf == [] && (side.rxEof || (side.chan == [] && SenderOpen(s.streams[id])))
    ensures AfterPoll(s, id, room) == s
  {
    var st := s.streams[id];
    assert st.hist.read + [] == st.hist.read;
    assert s.streams[id := st] == s.streams;
  }

  /** One `poll_read`, however many chunks it goes through, is a run of bridge steps; the loop's permit is
      set just when a slot of the channel was freed. */
  lemma {:induction false} PollReadIsARun(s: State, id: Id, room: nat)
    requires id in s.streams && Reading(s.streams[id])
    ensures var st := s.streams[id];
            var run := ReadSteps(id, st.side.rxBuf, st.side.rxEof, st.side.chan, SenderOpen(st), room);
            Possible(s, run) && After(s, run) == AfterPoll(s, id, room)
    decreases |s.streams[id].side.chan|
  {
    var st := s.streams[id];
    var side := st.side;
    if side.rxBuf == [] && (side.rxEof || (side.chan == [] && SenderOpen(st))) {
      NoStep(s, id, room);
    } else if side.rxBuf == [] && side.chan != [] {
      PopSteps(s, id);
      PollReadIsARun(Popped(s, id), id, room);
      PopThenPoll(s, id, room);
      var rest := ReadSteps(id, side.chan[0], false, side.chan[1..], SenderOpen(st), room);
      StepFirst(Apply(s, Bridge(id, RecvChunk)), Bridge(id, Notify), rest);
      StepFirst(s, Bridge(id, RecvChunk), [Bridge(id, Notify)] + rest);
    } else {
      LastStep(s, id, room);
      OneStep(s, Bridge(id, if side.rxBuf != [] then Read(room) else ReadEof));
    }
  }

  // ---------------------------------------------------------------- pump_inbound

  /** The visits of one stream's share of `pump_inbound` while its bridge does nothing. */
  function InSteps(id: Id, e: Entry, chan: seq<bytes>, receiverOpen: bool, i: RecvSide, plan: seq<RecvAnswer>): seq<Action>
    decreases |i.avail|
  {
    var r := VisitIn(e, chan, receiverOpen, i, plan);
    [Pump(id, InOne(plan))] + if r.again then InSteps(id, r.entry, r.chan, receiverOpen, r.recv, r.plan) else []
  }

  /** The stream after a pass of `PumpIn`; `taken` grows by what left the library. */
  ghost predicate Pumped(st: Stream, r: InPass, st': Stream) {
    && st'.slot == Live(r.entry) && st'.recv == r.recv && st'.send == st.send
    && st'.side == st.side.(chan := r.chan)
    && st'.hist == st.hist.(taken := st'.hist.taken)
    && st'.hist.taken + st'.recv.avail == st.hist.taken + st.recv.avail
  }

  /** The state after a pass over stream `id` that ends with `r`: nothing else has changed. */
  ghost predicate Passed(s: State, id: Id, r: InPass, t: State) {
    && s.pc.Turn? && id in s.streams && id in t.streams
    && Pumped(s.streams[id], r, t.streams[id])
    && t == s.(streams := s.streams[id := t.streams[id]], pc := t.pc)
    && t.pc == if r.again then s.pc else s.pc.(phase := Without(s.pc.phase, id))
  }

  function VisitOf(st: Stream, plan: seq<RecvAnswer>): InPass
    requires st.slot.Live?
  {
    VisitIn(st.slot.entry, st.side.chan, st.side.task == Alive, st.recv, plan)
  }

  function PassOf(st: Stream, plan: seq<RecvAnswer>): InPass
    requires st.slot.Live?
  {
    StreamCore.PumpIn(st.slot.entry, st.side.chan, st.side.task == Alive, st.recv, plan)
  }

  lemma VisitStep(s: State, id: Id, plan: seq<RecvAnswer>)
    requires Enabled(s, Pump(id, InOne(plan))) && ChanOk(s.streams[id].side.chan)
    ensures var t := Apply(s, Pump(id, InOne(plan)));
            Passed(s, id, VisitOf(s.streams[id], plan), t) && ChanOk(t.streams[id].side.chan)
  {
    RecvPassArrived(s.streams[id], plan);
    var got := RecvPassBytes(s.streams[id], plan);
  }

  lemma PassedTwice(s: State, id: Id, r: InPass, t: State, r': InPass, u: State)
    requires Passed(s, id, r, t) && r.again && Passed(t, id, r', u)
    ensures Passed(s, id, r', u)
  {
    assert s.streams[id := t.streams[id]][id := u.streams[id]] == s.streams[id := u.streams[id]];
  }

  /** One stream's share of `pump_inbound` is a run of visits, at the end of which the pump is done with it. */
  lemma {:induction false} PumpInIsARun(s: State, id: Id, plan: seq<RecvAnswer>)
    requires Enabled(s, Pump(id, InOne(plan))) && ChanOk(s.streams[id].side.chan)
    ensures var st := s.streams[id];
            var run := InSteps(id, st.slot.entry, st.side.chan, st.side.task == Alive, st.recv, plan);
            Possible(s, run) && Passed(s, id, PassOf(st, plan), After(s, run)) && !PassOf(st, plan).again
    decreases |s.streams[id].recv.avail|
  {
    var st := s.streams[id];
    var r := VisitOf(st, plan);
    var t := Apply(s, Pump(id, InOne(plan)));
    VisitStep(s, id, plan);
    if r.again {
      VisitBytes(st.slot.entry, st.side.chan, st.side.task == Alive, st.recv, plan);
      PumpInIsARun(t, id, r.plan);
      var rest := InSteps(id, r.entry, r.chan, st.side.task == Alive, r.recv, r.plan);
      StepFirst(s, Pump(id, InOne(plan)), rest);
      PassedTwice(s, id, r, t, PassOf(st, plan), After(t, rest));
    } else {
      OneStep(s, Pump(id, InOne(plan)));
      assert [Pump(id, InOne(plan))] + [] == [Pump(id, InOne(plan))];
    }
  }
}
