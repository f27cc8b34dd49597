/**
 The wire format `classify` recognises, written as encoders, and the proof that the parser and the
 format agree on every byte string. The records are those of section 5.1 of RFC 8446, the hello that
 of section 4.1.2 of RFC 8446, the ALPN list that of section 3.1 of RFC 7301; `acme-tls/1` is from
 section 3 of RFC 8737 and the ECH extension type from section 5 of draft-ietf-tls-esni-22.
 */
module HelloGrammar {
  import opened Bytes
  import opened Wrappers
  import opened ClientHello

  type Short = b: bytes | |b| < 0x100
  type Long = b: bytes | |b| < 0x1_0000

  function Vec8(b: Short): bytes {
    U8(|b|) + b
  }

  function Vec16(b: Long): bytes {
    U16(|b|) + b
  }

  datatype Ext = Ext(typ: nat, data: Long)

  predicate ExtOk(e: Ext) {
    e.typ < 0x1_0000
  }

  function EncodeExt(e: Ext): bytes
    requires ExtOk(e)
  {
    U16(e.typ) + Vec16(e.data)
  }

  function EncodeExts(es: seq<Ext>): bytes
    requires forall e :: e in es ==> ExtOk(e)
  {
    if es == [] then [] else EncodeExt(es[0]) + EncodeExts(es[1..])
  }

  function EncodeNames(names: seq<Short>): bytes {
    if names == [] then [] else Vec8(names[0]) + EncodeNames(names[1..])
  }

  /** The fixed part of a hello: version and random, session id, cipher suites, compression. */
  datatype Front = Front(fixed: bytes, session: Short, suites: Long, compression: Short)

  predicate FrontOk(f: Front) {
    |f.fixed| == 34
  }

  function EncodeFront(f: Front): bytes {
    f.fixed + (Vec8(f.session) + (Vec16(f.suites) + Vec8(f.compression)))
  }

  function EncodeHandshake(body: bytes): bytes
    requires |body| < 0x100_0000
  {
    [1] + U24(|body|) + body
  }

  function EncodeRecord(v0: byte, v1: byte, payload: Long): bytes {
    [0x16, v0, v1] + Vec16(payload)
  }

  // ---------------------------------------------------------------- what counts as a signal

  /** Some well-formed prefix of the name list holds `name`. */
  ghost predicate ListsName(list: bytes, name: bytes) {
    exists names: seq<Short>, tail: bytes :: list == EncodeNames(names) + tail && name in names
  }

  /** An ALPN extension whose list, followed by anything, offers `name`. */
  ghost predicate OffersName(data: bytes, name: bytes) {
    exists list: Long, rest: bytes :: data == Vec16(list) + rest && ListsName(list, name)
  }

  /** The signals, by their registered numbers: the ECH extension, or an ALPN extension that offers
      `acme-tls/1`. */
  ghost predicate IsSignal(e: Ext) {
    || e.typ == 0xfe0d
    || (e.typ == 0x0010 && OffersName(e.data, [0x61, 0x63, 0x6d, 0x65, 0x2d, 0x74, 0x6c, 0x73, 0x2f, 0x31]))
  }

  /** Some well-formed prefix of the extension block holds a signal. */
  ghost predicate Signals(exts: bytes) {
    exists es: seq<Ext>, tail: bytes ::
      (forall e :: e in es ==> ExtOk(e)) && exts == EncodeExts(es) + tail && exists e :: e in es && IsSignal(e)
  }

  // ---------------------------------------------------------------- names

  /** The longest well-formed prefix of a name list. */
  function ParseNames(list: bytes): (names: seq<Short>)
    decreases |list|
  {
    if |list| < 1 || |list| < 1 + Len8(list) then []
    else [list[1..1 + Len8(list)]] + ParseNames(list[1 + Len8(list)..])
  }

  lemma {:induction false} ParseNamesPrefix(list: bytes) returns (tail: bytes)
    ensures list == EncodeNames(ParseNames(list)) + tail
    ensures ScanNames(list) <==> ACME_ALPN in ParseNames(list)
    decreases |list|
  {
    if |list| < 1 || |list| < 1 + Len8(list) {
      tail := list;
    } else {
      var n := 1 + Len8(list);
      tail := ParseNamesPrefix(list[n..]);
      var name: Short := list[1..n];
      assert ParseNames(list) == [name] + ParseNames(list[n..]);
      assert list == Vec8(name) + list[n..];
      Assoc(Vec8(name), EncodeNames(ParseNames(list[n..])), tail);
    }
  }

  lemma {:induction false} ScanFindsName(names: seq<Short>, tail: bytes)
    requires ACME_ALPN in names
    ensures ScanNames(EncodeNames(names) + tail)
  {
    var list := EncodeNames(names) + tail;
    var rest := EncodeNames(names[1..]) + tail;
    Assoc(Vec8(names[0]), EncodeNames(names[1..]), tail);
    assert list == Vec8(names[0]) + rest;
    assert Len8(list) == |names[0]| && list[1..1 + Len8(list)] == names[0] && list[1 + Len8(list)..] == rest;
    if names[0] != ACME_ALPN {
      ScanFindsName(names[1..], tail);
    }
  }

  lemma ScanNamesExact(list: bytes)
    ensures ScanNames(list) <==> ListsName(list, ACME_ALPN)
  {
    var tail := ParseNamesPrefix(list);
    if ListsName(list, ACME_ALPN) {
      var names: seq<Short>, t: bytes :| list == EncodeNames(names) + t && ACME_ALPN in names;
      ScanFindsName(names, t);
    }
  }

  // ---------------------------------------------------------------- vectors

  lemma Vec16Split(list: Long, rest: bytes)
    ensures var b := Vec16(list) + rest;
            |b| >= 2 + |list| && Len16(b) == |list| && b[2..2 + |list|] == list && b[2 + |list|..] == rest
  {
    var b := Vec16(list) + rest;
    U16Inverse(|list|);
    assert b[0] == U16(|list|)[0] && b[1] == U16(|list|)[1];
  }

  lemma Vec16Join(b: bytes) returns (list: Long, rest: bytes)
    requires |b| >= 2 && |b| >= 2 + Len16(b)
    ensures b == Vec16(list) + rest && |list| == Len16(b)
    ensures list == b[2..2 + Len16(b)] && rest == b[2 + Len16(b)..]
  {
    var n := Len16(b);
    list, rest := b[2..2 + n], b[2 + n..];
    U16OfBytes(b[0], b[1]);
    assert b == [b[0], b[1]] + list + rest;
  }

  lemma Vec8Split(s: Short, rest: bytes)
    ensures var b := Vec8(s) + rest;
            |b| >= 1 + |s| && b[0] == |s| && b[1..1 + |s|] == s && b[1 + |s|..] == rest
  {
  }

  lemma Vec8Join(b: bytes) returns (s: Short, rest: bytes)
    requires |b| >= 1 && |b| >= 1 + Len8(b)
    ensures b == Vec8(s) + rest && rest == b[1 + Len8(b)..]
  {
    s, rest := b[1..1 + Len8(b)], b[1 + Len8(b)..];
    assert b == [b[0]] + s + rest;
  }

  lemma AlpnExact(data: bytes)
    ensures AlpnHasAcme(data) <==> OffersName(data, ACME_ALPN)
  {
    if |data| >= 2 && |data| >= 2 + Len16(data) {
      var list, rest := Vec16Join(data);
      ScanNamesExact(list);
    }
    if OffersName(data, ACME_ALPN) {
      var list: Long, rest: bytes :| data == Vec16(list) + rest && ListsName(list, ACME_ALPN);
      Vec16Split(list, rest);
      ScanNamesExact(list);
    }
  }

  /** An ALPN extension as a sender builds it is a signal just when it lists `acme-tls/1`. */
  lemma OfferExactly(names: seq<Short>)
    requires |EncodeNames(names)| < 0x1_0000 - 2
    ensures IsSignal(Ext(0x0010, Vec16(EncodeNames(names)))) <==>
              [0x61, 0x63, 0x6d, 0x65, 0x2d, 0x74, 0x6c, 0x73, 0x2f, 0x31] in names
  {
    var list: Long := EncodeNames(names);
    var data := Vec16(list);
    AlpnExact(data);
    assert data == data + [];
    Vec16Split(list, []);
    NamesOfEncoded(names);
    var tail := ParseNamesPrefix(list);
  }

  lemma {:induction false} NamesOfEncoded(names: seq<Short>)
    ensures ParseNames(EncodeNames(names)) == names
  {
    if names != [] {
      Vec8Split(names[0], EncodeNames(names[1..]));
      NamesOfEncoded(names[1..]);
    }
  }

  // ---------------------------------------------------------------- extensions

  /** The longest well-formed prefix of an extension block. */
  function ParseExts(exts: bytes): (es: seq<Ext>)
    ensures forall e :: e in es ==> ExtOk(e)
    decreases |exts|
  {
    if |exts| < 4 || |exts| < 4 + Len16(exts[2..]) then []
    else
      var len := Len16(exts[2..]);
      [Ext(Len16(exts), exts[4..4 + len])] + ParseExts(exts[4 + len..])
  }

  lemma ExtSplit(e: Ext, rest: bytes)
    requires ExtOk(e)
    ensures var b := EncodeExt(e) + rest;
            && |b| >= 4 + |e.data| && Len16(b) == e.typ && Len16(b[2..]) == |e.data|
            && b[4..4 + |e.data|] == e.data && b[4 + |e.data|..] == rest
  {
    var b := EncodeExt(e) + rest;
    U16Inverse(e.typ);
    Vec16Split(e.data, rest);
    assert b[2..] == Vec16(e.data) + rest;
    assert b[0] == U16(e.typ)[0] && b[1] == U16(e.typ)[1];
  }

  lemma ExtJoin(b: bytes)
    requires |b| >= 4 && |b| >= 4 + Len16(b[2..])
    ensures var len := Len16(b[2..]);
            b == EncodeExt(Ext(Len16(b), b[4..4 + len])) + b[4 + len..]
  {
    var data, rest := Vec16Join(b[2..]);
    U16OfBytes(b[0], b[1]);
    DropTwoAndCut(b, Len16(b[2..]));
    Assoc([b[0], b[1]], Vec16(data), rest);
    assert b == [b[0], b[1]] + b[2..];
  }

  lemma DropTwoAndCut(b: bytes, len: nat)
    requires |b| >= 4 + len
    ensures b[2..][2..2 + len] == b[4..4 + len] && b[2..][2 + len..] == b[4 + len..]
  {
  }

  lemma ParseExtsPrefix(exts: bytes) returns (tail: bytes)
    ensures exts == EncodeExts(ParseExts(exts)) + tail
    decreases |exts|
  {
    if |exts| < 4 || |exts| < 4 + Len16(exts[2..]) {
      tail := exts;
    } else {
      var len := Len16(exts[2..]);
      var e := Ext(Len16(exts), exts[4..4 + len]);
      ExtJoin(exts);
      tail := ParseExtsPrefix(exts[4 + len..]);
      assert ParseExts(exts) == [e] + ParseExts(exts[4 + len..]);
      Assoc(EncodeExt(e), EncodeExts(ParseExts(exts[4 + len..])), tail);
    }
  }

  lemma {:induction false} ScanIsParse(exts: bytes)
    ensures ScanExts(exts) <==> exists e :: e in ParseExts(exts) && IsSignal(e)
    decreases |exts|
  {
    if |exts| >= 4 {
      assert Len16(exts[2..]) == FromU16(exts[2], exts[3]);
      if |exts| >= 4 + Len16(exts[2..]) {
        var len := Len16(exts[2..]);
        var e := Ext(Len16(exts), exts[4..4 + len]);
        var rest := ParseExts(exts[4 + len..]);
        AlpnExact(e.data);
        ScanIsParse(exts[4 + len..]);
        assert ParseExts(exts) == [e] + rest;
        assert e in ParseExts(exts) && forall x :: x in rest ==> x in ParseExts(exts);
      }
    }
  }

  lemma {:induction false} ScanFindsSignal(es: seq<Ext>, tail: bytes, e: Ext)
    requires forall x :: x in es ==> ExtOk(x)
    requires e in es && IsSignal(e)
    ensures ScanExts(EncodeExts(es) + tail)
  {
    var exts := EncodeExts(es) + tail;
    var rest := EncodeExts(es[1..]) + tail;
    Assoc(EncodeExt(es[0]), EncodeExts(es[1..]), tail);
    ExtSplit(es[0], rest);
    assert Len16(exts[2..]) == FromU16(exts[2], exts[3]);
    AlpnExact(es[0].data);
    if e != es[0] {
      ScanFindsSignal(es[1..], tail, e);
    }
  }

  lemma ScanExtsExact(exts: bytes)
    ensures ScanExts(exts) <==> Signals(exts)
  {
    ScanIsParse(exts);
    var tail := ParseExtsPrefix(exts);
    if Signals(exts) {
      var es: seq<Ext>, t: bytes :|
        (forall e :: e in es ==> ExtOk(e)) && exts == EncodeExts(es) + t && exists e :: e in es && IsSignal(e);
      var e :| e in es && IsSignal(e);
      ScanFindsSignal(es, t, e);
    }
  }

  // ---------------------------------------------------------------- hello, handshake, record

  lemma FrontUnfold(f: Front, t: bytes)
    ensures EncodeFront(f) + t == f.fixed + (Vec8(f.session) + (Vec16(f.suites) + (Vec8(f.compression) + t)))
  {
    var c := Vec8(f.compression);
    var b := Vec16(f.suites);
    var a := Vec8(f.session);
    Assoc(b, c, t);
    Assoc(a, b + c, t);
    Assoc(f.fixed, a + (b + c), t);
  }

  lemma FrontSplit(f: Front, t: bytes)
    requires FrontOk(f)
    ensures AfterFront(EncodeFront(f) + t) == Some(t)
  {
    var body := EncodeFront(f) + t;
    var b2 := Vec8(f.compression) + t;
    var b1 := Vec16(f.suites) + b2;
    var b0 := Vec8(f.session) + b1;
    FrontUnfold(f, t);
    assert body[34..] == b0;
    Vec8Split(f.session, b1);
    Vec16Split(f.suites, b2);
    Vec8Split(f.compression, t);
  }

  lemma FrontJoin(body: bytes) returns (f: Front)
    requires AfterFront(body).Some?
    ensures FrontOk(f) && body == EncodeFront(f) + AfterFront(body).value
  {
    var session, b1 := Vec8Join(body[34..]);
    var suites, b2 := Vec16Join(b1);
    var compression, t := Vec8Join(b2);
    f := Front(body[..34], session, suites, compression);
    FrontUnfold(f, t);
    assert body == body[..34] + body[34..];
  }

  lemma HandshakeSplit(body: bytes, extra: bytes)
    requires |body| < 0x100_0000
    ensures var r := EncodeHandshake(body) + extra;
            |r| >= 4 + |body| && r[0] == 1 && FromU24(r[1], r[2], r[3]) == |body| && r[4..4 + |body|] == body
  {
    var r := EncodeHandshake(body) + extra;
    U24Inverse(|body|);
    assert r[1] == U24(|body|)[0] && r[2] == U24(|body|)[1] && r[3] == U24(|body|)[2];
  }

  lemma HandshakeJoin(r: bytes) returns (body: bytes, extra: bytes)
    requires |r| >= 4 && r[0] == 1 && |r| >= 4 + FromU24(r[1], r[2], r[3])
    ensures |body| < 0x100_0000 && r == EncodeHandshake(body) + extra
    ensures body == r[4..4 + FromU24(r[1], r[2], r[3])]
  {
    var n := FromU24(r[1], r[2], r[3]);
    body, extra := r[4..4 + n], r[4 + n..];
    U24OfBytes(r[1], r[2], r[3]);
    assert r == [1, r[1], r[2], r[3]] + body + extra;
  }

  /** The first record of `buf` has payload `r`. */
  ghost predicate FirstRecord(buf: bytes, r: Long) {
    exists v0: byte, v1: byte, more: bytes :: buf == EncodeRecord(v0, v1, r) + more
  }

  lemma RecordExact(buf: bytes)
    ensures forall r: Long :: FirstRecord(buf, r) ==> RecordComplete(buf) && r == buf[5..5 + FromU16(buf[3], buf[4])]
    ensures RecordComplete(buf) ==> FirstRecord(buf, buf[5..5 + FromU16(buf[3], buf[4])])
  {
    forall r: Long | FirstRecord(buf, r)
      ensures RecordComplete(buf) && r == buf[5..5 + FromU16(buf[3], buf[4])]
    {
      var v0: byte, v1: byte, more: bytes :| buf == EncodeRecord(v0, v1, r) + more;
      Vec16Split(r, more);
      assert buf == [0x16, v0, v1] + (Vec16(r) + more);
      assert buf[3..] == Vec16(r) + more;
      assert buf[5..5 + |r|] == buf[3..][2..2 + |r|];
    }
    if RecordComplete(buf) {
      var r, more := Vec16Join(buf[3..]);
      assert buf == [0x16, buf[1], buf[2]] + (Vec16(r) + more);
      assert buf == EncodeRecord(buf[1], buf[2], r) + more;
      assert r == buf[5..5 + FromU16(buf[3], buf[4])];
    }
  }

  /** The first record of `buf` starts with a complete ClientHello whose body is `body`. */
  ghost predicate HoldsHello(buf: bytes, body: bytes) {
    |body| < 0x100_0000 &&
    exists extra: bytes :: |EncodeHandshake(body) + extra| < 0x1_0000 && FirstRecord(buf, EncodeHandshake(body) + extra)
  }

  lemma HelloDecides(buf: bytes, body: bytes)
    requires HoldsHello(buf, body)
    ensures Classify(buf) == InHello(body)
  {
    var extra: bytes :| |EncodeHandshake(body) + extra| < 0x1_0000 && FirstRecord(buf, EncodeHandshake(body) + extra);
    RecordExact(buf);
    HandshakeSplit(body, extra);
  }

  /** A verdict other than Other for a wrong message type comes from a complete hello. */
  lemma DecidedByHello(buf: bytes) returns (body: bytes)
    requires RecordComplete(buf)
    requires Classify(buf) == EchOrAcmeAlpn || (Classify(buf) == Other && buf[5] == 1)
    ensures HoldsHello(buf, body) && Classify(buf) == InHello(body)
  {
    RecordExact(buf);
    var r: Long := buf[5..5 + FromU16(buf[3], buf[4])];
    var extra;
    body, extra := HandshakeJoin(r);
    assert |EncodeHandshake(body) + extra| < 0x1_0000 && FirstRecord(buf, EncodeHandshake(body) + extra);
  }

  // ---------------------------------------------------------------- exactness

  /** A hello body with extension block `exts`, followed by anything. */
  ghost predicate BodyWithExts(body: bytes, exts: Long) {
    exists f: Front, trailing: bytes :: FrontOk(f) && body == EncodeFront(f) + (Vec16(exts) + trailing)
  }

  /** A hello body that ends before the extension length. */
  ghost predicate BodyWithoutExts(body: bytes) {
    exists f: Front, t: bytes :: FrontOk(f) && |t| < 2 && body == EncodeFront(f) + t
  }

  lemma InExtsSplit(exts: Long, trailing: bytes)
    ensures InExts(Vec16(exts) + trailing) == if Signals(exts) then EchOrAcmeAlpn else Other
  {
    Vec16Split(exts, trailing);
    ScanExtsExact(exts);
  }

  lemma BodyExact(body: bytes)
    ensures InHello(body) == EchOrAcmeAlpn <==> exists exts: Long :: BodyWithExts(body, exts) && Signals(exts)
    ensures InHello(body) == Other <==>
              BodyWithoutExts(body) || exists exts: Long :: BodyWithExts(body, exts) && !Signals(exts)
  {
    forall exts: Long | BodyWithExts(body, exts)
      ensures InHello(body) == if Signals(exts) then EchOrAcmeAlpn else Other
    {
      var f: Front, trailing: bytes :| FrontOk(f) && body == EncodeFront(f) + (Vec16(exts) + trailing);
      FrontSplit(f, Vec16(exts) + trailing);
      InExtsSplit(exts, trailing);
    }
    if BodyWithoutExts(body) {
      var f: Front, t: bytes :| FrontOk(f) && |t| < 2 && body == EncodeFront(f) + t;
      FrontSplit(f, t);
    }
    if InHello(body) == EchOrAcmeAlpn || InHello(body) == Other {
      var f := FrontJoin(body);
      var t := AfterFront(body).value;
      if |t| < 2 {
        assert BodyWithoutExts(body);
      } else {
        var exts, trailing := Vec16Join(t);
        assert BodyWithExts(body, exts);
      }
    }
  }

  /** `classify` admits exactly the byte strings whose first record holds a complete ClientHello with
      a signal in some well-formed prefix of its extensions. */
  lemma AdmittedExactly(buf: bytes)
    ensures Classify(buf) == EchOrAcmeAlpn <==>
              exists body: bytes, exts: Long :: HoldsHello(buf, body) && BodyWithExts(body, exts) && Signals(exts)
  {
    forall body: bytes, exts: Long | HoldsHello(buf, body) && BodyWithExts(body, exts) && Signals(exts)
      ensures Classify(buf) == EchOrAcmeAlpn
    {
      HelloDecides(buf, body);
      BodyExact(body);
    }
    if Classify(buf) == EchOrAcmeAlpn {
      var body := DecidedByHello(buf);
      BodyExact(body);
    }
  }

  /** A complete hello that is refused: it ends before its extensions, or they hold no signal. */
  ghost predicate RefusedHello(body: bytes) {
    BodyWithoutExts(body) || exists exts: Long :: BodyWithExts(body, exts) && !Signals(exts)
  }

  /** `classify` answers Other exactly when the first record starts another handshake message or holds
      a complete ClientHello without a signal; NotTls exactly when the first byte is not a handshake
      record's; and Incomplete otherwise. */
  lemma RefusedExactly(buf: bytes)
    ensures Classify(buf) == Other <==>
              || (exists r: Long :: FirstRecord(buf, r) && r != [] && r[0] != 1)
              || (exists body: bytes :: HoldsHello(buf, body) && RefusedHello(body))
    ensures Classify(buf) == NotTls <==> buf != [] && buf[0] != 0x16
  {
    RecordExact(buf);
    forall body: bytes | HoldsHello(buf, body) && RefusedHello(body)
      ensures Classify(buf) == Other
    {
      HelloDecides(buf, body);
      BodyExact(body);
    }
    if Classify(buf) == Other && buf[5] == 1 {
      var body := DecidedByHello(buf);
      BodyExact(body);
      assert HoldsHello(buf, body) && RefusedHello(body);
    }
  }

  // ---------------------------------------------------------------- serialized hellos

  /** A ClientHello as a sender builds it, in one record of its own. */
  function Serialize(v0: byte, v1: byte, f: Front, es: seq<Ext>): bytes
    requires FrontOk(f) && forall e :: e in es ==> ExtOk(e)
    requires |EncodeExts(es)| < 0x1_0000
    requires |EncodeHandshake(EncodeFront(f) + Vec16(EncodeExts(es)))| < 0x1_0000
  {
    EncodeRecord(v0, v1, EncodeHandshake(EncodeFront(f) + Vec16(EncodeExts(es))))
  }

  lemma {:induction false} ParseOfEncoded(es: seq<Ext>)
    requires forall e :: e in es ==> ExtOk(e)
    ensures ParseExts(EncodeExts(es)) == es
  {
    if es != [] {
      ExtSplit(es[0], EncodeExts(es[1..]));
      ParseOfEncoded(es[1..]);
    }
  }

  /** On every serialized hello, whatever follows it, the verdict is EchOrAcmeAlpn when an extension
      is a signal and Other when none is. */
  lemma SerializedHello(v0: byte, v1: byte, f: Front, es: seq<Ext>, more: bytes)
    requires FrontOk(f) && forall e :: e in es ==> ExtOk(e)
    requires |EncodeExts(es)| < 0x1_0000
    requires |EncodeHandshake(EncodeFront(f) + Vec16(EncodeExts(es)))| < 0x1_0000
    ensures Classify(Serialize(v0, v1, f, es) + more)
         == if exists e :: e in es && IsSignal(e) then EchOrAcmeAlpn else Other
  {
    var exts: Long := EncodeExts(es);
    var body := EncodeFront(f) + Vec16(exts);
    var payload: Long := EncodeHandshake(body);
    var buf := Serialize(v0, v1, f, es) + more;
    assert FirstRecord(buf, payload);
    assert payload == EncodeHandshake(body) + [];
    assert HoldsHello(buf, body);
    HelloDecides(buf, body);
    FrontSplit(f, Vec16(exts));
    assert Vec16(exts) == Vec16(exts) + [];
    Vec16Split(exts, []);
    ScanIsParse(exts);
    ParseOfEncoded(es);
  }

  /** The same by the numbers alone: a serialized hello is admitted if and only if it has an extension of
      type 0xfe0d, or one of type 0x0010 whose list offers the ten bytes of `acme-tls/1`. */
  lemma AdmittedByNumber(v0: byte, v1: byte, f: Front, es: seq<Ext>, more: bytes)
    requires FrontOk(f) && forall e :: e in es ==> ExtOk(e)
    requires |EncodeExts(es)| < 0x1_0000
    requires |EncodeHandshake(EncodeFront(f) + Vec16(EncodeExts(es)))| < 0x1_0000
    ensures Classify(Serialize(v0, v1, f, es) + more) == EchOrAcmeAlpn <==>
              exists e :: e in es &&
                (e.typ == 0xfe0d ||
                 (e.typ == 0x0010 && OffersName(e.data, [0x61, 0x63, 0x6d, 0x65, 0x2d, 0x74, 0x6c, 0x73, 0x2f, 0x31])))
  {
    SerializedHello(v0, v1, f, es, more);
    forall e | e in es && (e.typ == 0xfe0d ||
        (e.typ == 0x0010 && OffersName(e.data, [0x61, 0x63, 0x6d, 0x65, 0x2d, 0x74, 0x6c, 0x73, 0x2f, 0x31])))
      ensures IsSignal(e)
    {
    }
  }

  /** A hello whose ALPN extension is a list of names, in full: it is admitted if and only if there is an
      extension of type 0xfe0d next to it or `acme-tls/1` is one of the names. */
  lemma AdmittedByNames(v0: byte, v1: byte, f: Front, others: seq<Ext>, names: seq<Short>, more: bytes)
    requires |EncodeNames(names)| < 0x1_0000 - 2
    requires FrontOk(f) && forall e :: e in others ==> ExtOk(e) && e.typ != 0x0010
    requires var es := others + [Ext(0x0010, Vec16(EncodeNames(names)))];
             (forall e :: e in es ==> ExtOk(e)) && |EncodeExts(es)| < 0x1_0000 &&
             |EncodeHandshake(EncodeFront(f) + Vec16(EncodeExts(es)))| < 0x1_0000
    ensures var es := others + [Ext(0x0010, Vec16(EncodeNames(names)))];
            Classify(Serialize(v0, v1, f, es) + more) == EchOrAcmeAlpn <==>
              (exists e :: e in others && e.typ == 0xfe0d) ||
              [0x61, 0x63, 0x6d, 0x65, 0x2d, 0x74, 0x6c, 0x73, 0x2f, 0x31] in names
  {
    var alpn := Ext(0x0010, Vec16(EncodeNames(names)));
    var es := others + [alpn];
    SerializedHello(v0, v1, f, es, more);
    OfferExactly(names);
    assert alpn in es;
    forall e | e in es && IsSignal(e)
      ensures (e in others && e.typ == 0xfe0d) || e == alpn
    {
    }
    forall e | e in others && e.typ == 0xfe0d
      ensures e in es && IsSignal(e)
    {
    }
  }
}
