/**
 The client's and the server's event loops joined by one QUIC connection. Stream `n` of the client's
 connection `ck` is stream `n` of the server's connection `sk`; the server may have any number of
 other connections. QUIC delivers what was handed to it in order and without loss or duplication
 (section 2.2 of RFC 9000), after any delay, until a reset or the end of the connection.

 The theorem: each direction of each stream behaves, step by step, as one first-in first-out pipe.
 */
module Tunnel {
  import opened Bytes
  import opened StreamCore
  import opened StreamModel
  import opened EventLoop
  import opened EventLoopProof
  import opened EventLoopTheorems
  import opened Observation

  datatype Tunnel = Tunnel(client: State, server: State, ck: Key, sk: Key)

  datatype Step = AtClient(a: Action) | AtServer(a: Action)

  /** What a network action may bring to connection `k` of one process, given the other process. */
  predicate Delivers(a: Action, here: State, k: Key, there: State, k': Key) {
    match a
    case Net(id, NetData(d)) =>
      id.key == k ==> ViewOn(here, id).inn.arrived + d <= ViewOn(there, Id(k', id.sid)).out.accepted
    case Net(id, NetFin) =>
      id.key == k ==>
        var out := ViewOn(there, Id(k', id.sid)).out;
        out.fins == 1 && out.accepted == ViewOn(here, id).inn.arrived
    case NetOpen(id) => id.key == k ==> Id(k', id.sid) in there.streams
    case _ => true
  }

  predicate TunnelEnabled(t: Tunnel, step: Step) {
    match step
    case AtClient(a) => Enabled(t.client, a) && Delivers(a, t.client, t.ck, t.server, t.sk)
    case AtServer(a) => Enabled(t.server, a) && Delivers(a, t.server, t.sk, t.client, t.ck)
  }

  function TunnelApply(t: Tunnel, step: Step): Tunnel
    requires TunnelEnabled(t, step)
  {
    match step
    case AtClient(a) => t.(client := Apply(t.client, a))
    case AtServer(a) => t.(server := Apply(t.server, a))
  }

  /** What stream `n` has brought from `from` to `to` is a prefix of what it was given to bring, and
      all of it once the fin has arrived. */
  predicate Carried(v: View, v': View) {
    && v'.inn.arrived <= v.out.accepted
    && (v'.inn.finArrived ==> v.out.fins == 1 && v'.inn.arrived == v.out.accepted)
  }

  ghost predicate Wire(from: State, fk: Key, to: State, tk: Key) {
    forall n: nat :: Carried(ViewOn(from, Id(fk, n)), ViewOn(to, Id(tk, n)))
  }

  ghost predicate TunnelInv(t: Tunnel) {
    && Inv(t.client) && Inv(t.server)
    && Wire(t.client, t.ck, t.server, t.sk)
    && Wire(t.server, t.sk, t.client, t.ck)
  }

  lemma SenderCarries(a: Action, id: Id, v: View, v1: View, v': View)
    requires ViewNext(a, id, v, v1) && Carried(v, v')
    ensures Carried(v1, v')
  {
    if Same(v, v1) {
    } else if Handed(v, v1) {
      PrefixChain(v'.inn.arrived, v.out.accepted, v1.out.accepted);
    }
  }

  lemma ReceiverCarries(a: Action, id: Id, v': View, v1: View, v: View)
    requires ViewNext(a, id, v', v1) && Carried(v, v')
    requires a.Net? && a.id == id && a.n.NetData? ==> v'.inn.arrived + a.n.data <= v.out.accepted
    requires a.Net? && a.id == id && a.n.NetFin? ==> v.out.fins == 1 && v.out.accepted == v'.inn.arrived
    ensures Carried(v, v1)
  {
  }

  /** The sending process moves. */
  lemma SenderKeepsWire(from: State, fk: Key, to: State, tk: Key, a: Action)
    requires Inv(from) && Enabled(from, a) && Wire(from, fk, to, tk)
    ensures Wire(Apply(from, a), fk, to, tk)
  {
    forall n: nat
      ensures Carried(ViewOn(Apply(from, a), Id(fk, n)), ViewOn(to, Id(tk, n)))
    {
      ViewStep(from, a, Id(fk, n));
      SenderCarries(a, Id(fk, n), ViewOn(from, Id(fk, n)), ViewOn(Apply(from, a), Id(fk, n)), ViewOn(to, Id(tk, n)));
    }
  }

  /** The receiving process moves. */
  lemma ReceiverKeepsWire(from: State, fk: Key, to: State, tk: Key, a: Action)
    requires Inv(to) && Enabled(to, a) && Delivers(a, to, tk, from, fk) && Wire(from, fk, to, tk)
    ensures Wire(from, fk, Apply(to, a), tk)
  {
    forall n: nat
      ensures Carried(ViewOn(from, Id(fk, n)), ViewOn(Apply(to, a), Id(tk, n)))
    {
      ViewStep(to, a, Id(tk, n));
      ReceiverCarries(a, Id(tk, n), ViewOn(to, Id(tk, n)), ViewOn(Apply(to, a), Id(tk, n)), ViewOn(from, Id(fk, n)));
    }
  }

  lemma TunnelKeepsInv(t: Tunnel, step: Step)
    requires TunnelInv(t) && TunnelEnabled(t, step)
    ensures TunnelInv(TunnelApply(t, step))
  {
    match step
    case AtClient(a) =>
      StepKeepsInv(t.client, a);
      SenderKeepsWire(t.client, t.ck, t.server, t.sk, a);
      ReceiverKeepsWire(t.server, t.sk, t.client, t.ck, a);
    case AtServer(a) =>
      StepKeepsInv(t.server, a);
      SenderKeepsWire(t.server, t.sk, t.client, t.ck, a);
      ReceiverKeepsWire(t.client, t.ck, t.server, t.sk, a);
  }

  // ---------------------------------------------------------------- the byte pipe

  /** The specification: a pipe that is written, shut, read and ends; it may break. */
  datatype Pipe = Pipe(written: bytes, shut: bool, read: bytes, eof: bool, broken: bool)

  const EMPTY_PIPE: Pipe := Pipe([], false, [], false, false)

  /** One step of the pipe. Reads follow writes in order; writes end with the shutdown, reads with
      EOF; EOF comes after everything written was read, unless the pipe broke. */
  ghost predicate PipeStep(p: Pipe, p': Pipe) {
    || p' == p
    || (!p.shut && exists d: bytes :: p' == p.(written := p.written + d))
    || p' == p.(shut := true)
    || (!p.eof && p.read <= p'.read <= p.written && p' == p.(read := p'.read))
    || ((p.broken || (p.shut && p.read == p.written)) && p' == p.(eof := true))
    || p' == p.(broken := true)
  }

  function PipeOf(v: View, v': View): Pipe {
    Pipe(v.out.written, v.out.shut, v'.inn.read, v'.inn.eof, v.broken || v'.broken)
  }

  function ToServer(t: Tunnel, n: nat): Pipe {
    PipeOf(ViewOn(t.client, Id(t.ck, n)), ViewOn(t.server, Id(t.sk, n)))
  }

  function ToClient(t: Tunnel, n: nat): Pipe {
    PipeOf(ViewOn(t.server, Id(t.sk, n)), ViewOn(t.client, Id(t.ck, n)))
  }

  /** What the library was given of a stream is a prefix of what was written, and all of it, with a
      shutdown, once it has the fin. */
  predicate Given(v: View) {
    && v.out.accepted <= v.out.written
    && (v.out.fins == 1 ==> v.out.shut && v.out.accepted == v.out.written)
  }

  lemma InvGives(s: State, id: Id)
    requires Inv(s)
    ensures Given(ViewOn(s, id))
  {
    if id in s.streams {
      var st := s.streams[id];
      var q := Proj(s.egress, id);
      assert StreamInv(st, q);
      PayloadAppend(st.hist.handled, q);
      if st.send.fins == 1 {
        FinEndsPayload(st.hist.handled, q);
      }
    }
  }

  /** The sender's side of the pipe moves. */
  lemma SenderIsPipeStep(a: Action, id: Id, v: View, v1: View, v': View)
    requires ViewNext(a, id, v, v1)
    ensures PipeStep(PipeOf(v, v'), PipeOf(v1, v'))
  {
    if a.Bridge? && a.id == id && a.b.Write? {
      assert PipeOf(v1, v') == PipeOf(v, v').(written := PipeOf(v, v').written + a.b.data);
    }
  }

  /** The receiver's side of the pipe moves. */
  lemma ReceiverIsPipeStep(a: Action, id: Id, v: View, v': View, v1: View)
    requires ViewNext(a, id, v', v1) && Carried(v, v') && Given(v)
    ensures PipeStep(PipeOf(v, v'), PipeOf(v, v1))
  {
    PrefixChain(v'.inn.arrived, v.out.accepted, v.out.written);
    if a.Bridge? && a.id == id && a.b.Read? {
      PrefixChain(v1.inn.read, v'.inn.arrived, v.out.written);
    }
  }

  /** Every step of the tunnel is a step of each pipe, in both directions of every stream. */
  lemma TunnelRefinesPipes(t: Tunnel, step: Step, n: nat)
    requires TunnelInv(t) && TunnelEnabled(t, step)
    ensures PipeStep(ToServer(t, n), ToServer(TunnelApply(t, step), n))
    ensures PipeStep(ToClient(t, n), ToClient(TunnelApply(t, step), n))
  {
    var c, s := Id(t.ck, n), Id(t.sk, n);
    InvGives(t.client, c);
    InvGives(t.server, s);
    assert Carried(ViewOn(t.client, c), ViewOn(t.server, s));
    assert Carried(ViewOn(t.server, s), ViewOn(t.client, c));
    match step
    case AtClient(a) =>
      var v1 := ViewOn(Apply(t.client, a), c);
      ViewStep(t.client, a, c);
      SenderIsPipeStep(a, c, ViewOn(t.client, c), v1, ViewOn(t.server, s));
      ReceiverIsPipeStep(a, c, ViewOn(t.server, s), ViewOn(t.client, c), v1);
    case AtServer(a) =>
      var v1 := ViewOn(Apply(t.server, a), s);
      ViewStep(t.server, a, s);
      SenderIsPipeStep(a, s, ViewOn(t.server, s), v1, ViewOn(t.client, c));
      ReceiverIsPipeStep(a, s, ViewOn(t.client, c), ViewOn(t.server, s), v1);
  }

  // ---------------------------------------------------------------- whole runs

  predicate TunnelStart(t: Tunnel) {
    Initial(t.client) && Initial(t.server)
  }

  predicate TunnelPossible(t: Tunnel, run: seq<Step>)
    decreases |run|
  {
    run == [] || (TunnelEnabled(t, run[0]) && TunnelPossible(TunnelApply(t, run[0]), run[1..]))
  }

  function TunnelAfter(t: Tunnel, run: seq<Step>): Tunnel
    requires TunnelPossible(t, run)
    decreases |run|
  {
    if run == [] then t else TunnelAfter(TunnelApply(t, run[0]), run[1..])
  }

  lemma {:induction false} TunnelRunKeeps(t: Tunnel, run: seq<Step>)
    requires TunnelInv(t) && TunnelPossible(t, run)
    ensures TunnelInv(TunnelAfter(t, run)) && TunnelAfter(t, run).ck == t.ck && TunnelAfter(t, run).sk == t.sk
    decreases |run|
  {
    if run != [] {
      TunnelKeepsInv(t, run[0]);
      TunnelRunKeeps(TunnelApply(t, run[0]), run[1..]);
    }
  }

  /** The states a pipe goes through during a run are a run of the pipe from the empty one. */
  lemma {:induction false} RunRefinesPipes(t: Tunnel, run: seq<Step>, n: nat, toServer: bool) returns (pipes: seq<Pipe>)
    requires TunnelInv(t) && TunnelPossible(t, run)
    ensures |pipes| == |run| + 1
    ensures pipes[0] == if toServer then ToServer(t, n) else ToClient(t, n)
    ensures pipes[|run|] == if toServer then ToServer(TunnelAfter(t, run), n) else ToClient(TunnelAfter(t, run), n)
    ensures forall i :: 0 <= i < |run| ==> PipeStep(pipes[i], pipes[i + 1])
    decreases |run|
  {
    var here := if toServer then ToServer(t, n) else ToClient(t, n);
    if run == [] {
      pipes := [here];
    } else {
      var next := TunnelApply(t, run[0]);
      TunnelKeepsInv(t, run[0]);
      TunnelRefinesPipes(t, run[0], n);
      var rest := RunRefinesPipes(next, run[1..], n, toServer);
      pipes := [here] + rest;
    }
  }

  /** End to end: what the far bridge has read is a prefix of what the near bridge wrote; and if it
      saw EOF on a stream that did not break, the near bridge had shut down and the far bridge has
      read all of it. */
  predicate EndToEnd(p: Pipe) {
    p.read <= p.written && (p.eof && !p.broken ==> p.shut && p.read == p.written)
  }

  lemma BytesComeThrough(t: Tunnel, run: seq<Step>, n: nat)
    requires TunnelStart(t) && TunnelPossible(t, run)
    ensures EndToEnd(ToServer(TunnelAfter(t, run), n))
    ensures EndToEnd(ToClient(TunnelAfter(t, run), n))
  {
    TunnelRunKeeps(t, run);
    var t' := TunnelAfter(t, run);
    DirectionComesThrough(t'.client, Id(t'.ck, n), t'.server, Id(t'.sk, n));
    DirectionComesThrough(t'.server, Id(t'.sk, n), t'.client, Id(t'.ck, n));
  }

  lemma DirectionComesThrough(from: State, f: Id, to: State, g: Id)
    requires Inv(from) && Inv(to) && Carried(ViewOn(from, f), ViewOn(to, g))
    ensures EndToEnd(PipeOf(ViewOn(from, f), ViewOn(to, g)))
  {
    InvGives(from, f);
    var v, v' := ViewOn(from, f), ViewOn(to, g);
    if g in to.streams {
      var st := to.streams[g];
      assert StreamInv(st, Proj(to.egress, g));
      PrefixChain(st.hist.read, st.hist.taken, v'.inn.arrived);
      PrefixChain(v'.inn.read, v'.inn.arrived, v.out.accepted);
      PrefixChain(v'.inn.read, v.out.accepted, v.out.written);
    }
  }
}
