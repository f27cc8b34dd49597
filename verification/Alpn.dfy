/**
 ALPN in `src/tls_server.rs`: the wire encoder, the iterator over an offer, and the selection callback;
 and how the iterator's reading of an offer compares with the one of the ClientHello gate.
 */
module Alpn {
  import opened Bytes
  import opened Wrappers
  import opened ClientHello
  import opened HelloGrammar

  /** `h2` and `http/1.1` */
  const H2: bytes := [0x68, 0x32]
  const HTTP11: bytes := [0x68, 0x74, 0x74, 0x70, 0x2f, 0x31, 0x2e, 0x31]

  /** The names an iterator over `wire` yields: it stops at the end, at an empty name and at one that does not fit. */
  function Names(wire: bytes): seq<bytes>
    decreases |wire|
  {
    if |wire| < 1 || Len8(wire) == 0 || |wire| < 1 + Len8(wire) then []
    else [wire[1..1 + Len8(wire)]] + Names(wire[1 + Len8(wire)..])
  }

  /** What the iterator leaves unread where it stops. */
  function Unread(wire: bytes): bytes
    decreases |wire|
  {
    if |wire| < 1 || Len8(wire) == 0 || |wire| < 1 + Len8(wire) then wire
    else Unread(wire[1 + Len8(wire)..])
  }

  class AlpnIter {
    var remaining: bytes

    constructor (wire: bytes)
      ensures remaining == wire
    {
      remaining := wire;
    }

    method Next() returns (proto: Option<bytes>)
      modifies this
      ensures Names(old(remaining)) == if proto.Some? then [proto.value] + Names(remaining) else []
      ensures Unread(old(remaining)) == Unread(remaining)
      ensures if proto.Some? then |remaining| < |old(remaining)| else remaining == old(remaining) == Unread(remaining)
    {
      if remaining == [] {
        return None;
      }
      var len := remaining[0];
      if len == 0 || |remaining| < 1 + Len8(remaining) {
        return None;
      }
      proto := Some(remaining[1..1 + Len8(remaining)]);
      remaining := remaining[1 + Len8(remaining)..];
    }
  }

  // ---------------------------------------------------------------- encoder and iterator

  /** One name on the wire; the length byte keeps only the low eight bits of the length. */
  function Framed(name: bytes): bytes {
    [|name| % 256] + name
  }

  function Wire(protos: seq<bytes>): bytes {
    if protos == [] then [] else Framed(protos[0]) + Wire(protos[1..])
  }

  lemma {:induction false} WireSnoc(protos: seq<bytes>, p: bytes)
    ensures Wire(protos + [p]) == Wire(protos) + Framed(p)
  {
    if protos == [] {
      assert [p][1..] == [];
      assert protos + [p] == [p] && Framed(p) + Wire([]) == Framed(p) == Wire([]) + Framed(p);
    } else {
      assert (protos + [p])[1..] == protos[1..] + [p];
      WireSnoc(protos[1..], p);
      Assoc(Framed(protos[0]), Wire(protos[1..]), Framed(p));
    }
  }

  /** `alpn_wire` */
  method AlpnWire(protos: seq<bytes>) returns (out: bytes)
    ensures out == Wire(protos)
  {
    out := [];
    for i := 0 to |protos|
      invariant out == Wire(protos[..i])
    {
      var p := protos[i];
      assert protos[..i + 1] == protos[..i] + [p];
      WireSnoc(protos[..i], p);
      Assoc(out, [|p| % 256], p);
      out := out + [|p| % 256];
      out := out + p;
    }
    assert protos[..|protos|] == protos;
  }

  predicate Encodable(protos: seq<bytes>) {
    forall i :: 0 <= i < |protos| ==> 1 <= |protos[i]| <= 255
  }

  lemma {:induction false} NamesAreEncodable(wire: bytes)
    ensures Encodable(Names(wire))
    decreases |wire|
  {
    if !(|wire| < 1 || Len8(wire) == 0 || |wire| < 1 + Len8(wire)) {
      NamesAreEncodable(wire[1 + Len8(wire)..]);
    }
  }

  /** The iterator reads a framed name back. */
  lemma FramedReadsBack(p: bytes, rest: bytes)
    requires 1 <= |p| <= 255
    ensures Names(Framed(p) + rest) == [p] + Names(rest) && Unread(Framed(p) + rest) == Unread(rest)
  {
    var w := Framed(p) + rest;
    assert Len8(w) == |p|;
    assert w[1..1 + |p|] == p;
    assert w[1 + |p|..] == rest;
  }

  lemma Regroup(protos: seq<bytes>, more: seq<bytes>)
    requires protos != []
    ensures [protos[0]] + (protos[1..] + more) == protos + more
  {
  }

  lemma {:induction false} NamesOfWire(protos: seq<bytes>, tail: bytes)
    requires Encodable(protos)
    ensures Names(Wire(protos) + tail) == protos + Names(tail) && Unread(Wire(protos) + tail) == Unread(tail)
  {
    if protos == [] {
      assert Wire(protos) + tail == tail && protos + Names(tail) == Names(tail);
    } else {
      var p, rest := protos[0], Wire(protos[1..]) + tail;
      Assoc(Framed(p), Wire(protos[1..]), tail);
      FramedReadsBack(p, rest);
      NamesOfWire(protos[1..], tail);
      Regroup(protos, Names(tail));
    }
  }

  /** Iterating the encoding of a list gives the list back exactly when every name has 1 to 255 bytes. */
  lemma CodecRoundTrip(protos: seq<bytes>)
    ensures Names(Wire(protos)) == protos <==> Encodable(protos)
    ensures Encodable(protos) ==> Unread(Wire(protos)) == []
  {
    NamesAreEncodable(Wire(protos));
    if Encodable(protos) {
      NamesOfWire(protos, []);
      assert Wire(protos) + [] == Wire(protos) && protos + [] == protos;
    }
  }

  lemma FramedSlice(wire: bytes)
    requires |wire| >= 1 && |wire| >= 1 + Len8(wire)
    ensures Framed(wire[1..1 + Len8(wire)]) == wire[..1 + Len8(wire)]
  {
  }

  /** Whatever the iterator is given, what it yields and what it leaves unread are all of it. */
  lemma {:induction false} IteratorLosesNothing(wire: bytes)
    ensures Wire(Names(wire)) + Unread(wire) == wire
    decreases |wire|
  {
    if !(|wire| < 1 || Len8(wire) == 0 || |wire| < 1 + Len8(wire)) {
      var n := 1 + Len8(wire);
      IteratorLosesNothing(wire[n..]);
      FramedSlice(wire);
      assert Names(wire)[1..] == Names(wire[n..]);
      Assoc(wire[..n], Wire(Names(wire[n..])), Unread(wire[n..]));
      assert wire[..n] + wire[n..] == wire;
    }
  }

  // ---------------------------------------------------------------- the selection callback

  /** A challenge context of the store; `installs` says whether the TLS library takes it. */
  datatype Context = Context(id: nat, installs: bool)

  datatype Choice = Selected(proto: bytes, context: Option<Context>) | AlertFatal | NoAck

  /** The context the callback swaps in for the server name, if there is one and it can be installed. */
  function Challenge(sni: Option<string>, store: map<string, Context>): Option<Context> {
    if sni.Some? && sni.value in store && store[sni.value].installs then Some(store[sni.value]) else None
  }

  /** The choice as a matter of which names are on offer, whatever their order and number. */
  function Choose(offer: set<bytes>, sni: Option<string>, store: map<string, Context>): Choice {
    if ACME_ALPN in offer then
      if Challenge(sni, store).Some? then Selected(ACME_ALPN, Challenge(sni, store)) else AlertFatal
    else if H2 in offer then Selected(H2, None)
    else if HTTP11 in offer then Selected(HTTP11, None)
    else NoAck
  }

  function Offered(names: seq<bytes>): set<bytes> {
    set n | n in names
  }

  /** The callback installed by `install_alpn_callback`. */
  method SelectAlpn(wire: bytes, sni: Option<string>, store: map<string, Context>) returns (choice: Choice)
    ensures choice == Choose(Offered(Names(wire)), sni, store)
  {
    var iter := new AlpnIter(wire);
    var offeredAcme, firstH2: Option<bytes>, firstH11: Option<bytes> := false, None, None;
    ghost var seen: seq<bytes> := [];
    var proto := iter.Next();
    if proto.None? {
      assert Names(wire) == [];
    }
    while proto.Some?
      invariant fresh(iter)
      invariant Names(wire) == seen + if proto.Some? then [proto.value] + Names(iter.remaining) else []
      invariant offeredAcme <==> ACME_ALPN in seen
      invariant firstH2 == if H2 in seen then Some(H2) else None
      invariant firstH11 == if HTTP11 in seen then Some(HTTP11) else None
      decreases if proto.Some? then 1 + |iter.remaining| else 0
    {
      var p := proto.value;
      ghost var was := iter.remaining;
      NamesDiffer();
      if p == ACME_ALPN {
        offeredAcme := true;
      } else if p == H2 && firstH2.None? {
        firstH2 := Some(p);
      } else if p == HTTP11 && firstH11.None? {
        firstH11 := Some(p);
      }
      proto := iter.Next();
      assert seen + ([p] + Names(was)) == (seen + [p]) + Names(was);
      seen := seen + [p];
    }
    assert seen == Names(wire);
    if offeredAcme {
      if sni.Some? {
        if sni.value in store {
          var ctx := store[sni.value];
          if ctx.installs {
            return Selected(ACME_ALPN, Some(ctx));
          }
        }
      }
      return AlertFatal;
    }
    if firstH2.Some? {
      return Selected(firstH2.value, None);
    }
    if firstH11.Some? {
      return Selected(firstH11.value, None);
    }
    choice := NoAck;
  }

  lemma NamesDiffer()
    ensures ACME_ALPN != H2 && ACME_ALPN != HTTP11 && H2 != HTTP11
  {
    assert |ACME_ALPN| == 10 && |H2| == 2 && |HTTP11| == 8;
  }

  lemma ChoicePriority(offer: set<bytes>, sni: Option<string>, store: map<string, Context>)
    ensures var acme: bytes := [0x61, 0x63, 0x6d, 0x65, 0x2d, 0x74, 0x6c, 0x73, 0x2f, 0x31];
            var h2: bytes, http11: bytes := [0x68, 0x32], [0x68, 0x74, 0x74, 0x70, 0x2f, 0x31, 0x2e, 0x31];
            var c := Choose(offer, sni, store);
            if acme in offer then c.AlertFatal? || (c.Selected? && c.proto == acme && c.context.Some?)
            else if h2 in offer then c == Selected(h2, None)
            else if http11 in offer then c == Selected(http11, None)
            else c == NoAck
    ensures var acme: bytes := [0x61, 0x63, 0x6d, 0x65, 0x2d, 0x74, 0x6c, 0x73, 0x2f, 0x31];
            var h2: bytes, http11: bytes := [0x68, 0x32], [0x68, 0x74, 0x74, 0x70, 0x2f, 0x31, 0x2e, 0x31];
            acme != h2 && acme != http11 && h2 != http11
  {
    NamesDiffer();
  }

  /** The names by their bytes: `acme-tls/1`, `h2` and `http/1.1`. On every list a client can encode, an
      ACME offer ends in the challenge or in a fatal alert, never in another protocol; otherwise `h2` is
      taken if offered, then `http/1.1`, then nothing. */
  lemma SelectionPriority(protos: seq<bytes>, sni: Option<string>, store: map<string, Context>)
    requires Encodable(protos)
    ensures var acme: bytes := [0x61, 0x63, 0x6d, 0x65, 0x2d, 0x74, 0x6c, 0x73, 0x2f, 0x31];
            var h2: bytes, http11: bytes := [0x68, 0x32], [0x68, 0x74, 0x74, 0x70, 0x2f, 0x31, 0x2e, 0x31];
            var c := Choose(Offered(Names(Wire(protos))), sni, store);
            (acme in protos <==> c.AlertFatal? || (c.Selected? && c.proto == acme)) &&
            (c.Selected? && c.proto == h2 <==> h2 in protos && acme !in protos) &&
            (c.Selected? && c.proto == http11 <==> http11 in protos && h2 !in protos && acme !in protos) &&
            (c.NoAck? <==> acme !in protos && h2 !in protos && http11 !in protos) &&
            (c.Selected? ==> c.proto in protos && (c.context.Some? <==> c.proto == acme))
  {
    CodecRoundTrip(protos);
    ChoicePriority(Offered(protos), sni, store);
  }

  /** An ACME offer gets the context of the store if and only if the client names a server, the store has a
      context under that very name, and the TLS library takes it; in every other case it gets the fatal
      alert. */
  lemma ChallengeExactly(wire: bytes, sni: Option<string>, store: map<string, Context>, c: Context)
    requires [0x61, 0x63, 0x6d, 0x65, 0x2d, 0x74, 0x6c, 0x73, 0x2f, 0x31] in Names(wire)
    ensures var choice := Choose(Offered(Names(wire)), sni, store);
            && (choice == Selected([0x61, 0x63, 0x6d, 0x65, 0x2d, 0x74, 0x6c, 0x73, 0x2f, 0x31], Some(c)) <==>
                  sni.Some? && sni.value in store && store[sni.value] == c && c.installs)
            && (choice == AlertFatal <==> !(sni.Some? && sni.value in store && store[sni.value].installs))
  {
    assert ACME_ALPN in Offered(Names(wire));
  }

  /** The iterator stops only at the end, at an empty name or at one that does not fit. */
  lemma {:induction false} StopsForCause(wire: bytes)
    ensures var rest := Unread(wire);
            rest == [] || rest[0] == 0 || |rest| < 1 + rest[0] as int
    decreases |wire|
  {
    if !(|wire| < 1 || Len8(wire) == 0 || |wire| < 1 + Len8(wire)) {
      StopsForCause(wire[1 + Len8(wire)..]);
    }
  }

  // ---------------------------------------------------------------- the two readings of an offer

  /** The gate's scan goes on after an empty name, the iterator does not: that is all the difference. */
  lemma {:induction false} ScanOrIterate(list: bytes)
    ensures ScanNames(list) <==>
            ACME_ALPN in Names(list) || (Unread(list) != [] && Unread(list)[0] == 0 && ScanNames(Unread(list)[1..]))
    decreases |list|
  {
    if |list| >= 1 && Len8(list) == 0 {
      assert list[1..1 + Len8(list)] == [];
    } else if |list| >= 1 && |list| >= 1 + Len8(list) {
      ScanOrIterate(list[1 + Len8(list)..]);
    }
  }

  lemma GateScansOffer(list: Long)
    ensures AlpnHasAcme(Vec16(list)) == ScanNames(list)
  {
    Vec16Split(list, []);
    assert Vec16(list) + [] == Vec16(list);
  }

  /** Every offer the callback reads as ACME, the gate reads as ACME; the gate reads more only where the
      iterator stopped at an empty name and the ACME name comes later. */
  lemma GateAndCallbackAgree(list: Long)
    ensures ACME_ALPN in Names(list) ==> AlpnHasAcme(Vec16(list))
    ensures AlpnHasAcme(Vec16(list)) && ACME_ALPN !in Names(list) <==>
            ACME_ALPN !in Names(list) && Unread(list) != [] && Unread(list)[0] == 0 && ScanNames(Unread(list)[1..])
  {
    GateScansOffer(list);
    ScanOrIterate(list);
  }

  lemma FramedAcmeScans()
    ensures ScanNames(Framed(ACME_ALPN))
  {
    FramedReadsBack(ACME_ALPN, []);
    assert Framed(ACME_ALPN) + [] == Framed(ACME_ALPN);
    ScanOrIterate(Framed(ACME_ALPN));
  }

  /** An offer the gate lets through for its ACME name and the callback then does not see. */
  lemma EmptyNameHidesAcme()
    ensures var list: Long := [0] + Framed(ACME_ALPN);
            AlpnHasAcme(Vec16(list)) && Names(list) == [] &&
            Choose(Offered(Names(list)), None, map[]) == NoAck
  {
    var list: Long := [0] + Framed(ACME_ALPN);
    assert list[1..] == Framed(ACME_ALPN) && Unread(list) == list;
    FramedAcmeScans();
    GateScansOffer(list);
    ScanOrIterate(list);
  }
}
