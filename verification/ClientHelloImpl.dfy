/**
 `src/clienthello.rs` in its own form, a cursor over a buffer, and the peek loop of `src/server.rs`
 that re-runs it on a growing prefix of the connection.
 */
module ClientHelloImpl {
  import opened Bytes
  import opened Wrappers
  import opened ClientHello

  lemma SliceOfRest(b: bytes, i: nat, n: nat)
    requires i <= |b| && n <= |b| - i
    ensures b[i..][..n] == b[i..i + n] && b[i..][n..] == b[i + n..]
  {
  }

  class Reader {
    const buf: bytes
    var pos: nat

    ghost predicate Valid()
      reads this
    {
      pos <= |buf|
    }

    /** What has not been read. */
    ghost function Rest(): bytes
      requires Valid()
      reads this
    {
      buf[pos..]
    }

    constructor (buf: bytes)
      ensures Valid() && Rest() == buf
    {
      this.buf := buf;
      pos := 0;
    }

    method IsEmpty() returns (r: bool)
      requires Valid()
      ensures r <==> Rest() == []
    {
      r := pos >= |buf|;
    }

    /** A read takes the whole field or nothing. */
    method ReadSlice(n: nat) returns (r: Option<bytes>)
      requires Valid()
      modifies this`pos
      ensures Valid()
      ensures if n <= |old(Rest())| then r == Some(old(Rest())[..n]) && Rest() == old(Rest())[n..]
              else r == None && pos == old(pos)
    {
      if pos + n > |buf| {
        return None;
      }
      SliceOfRest(buf, pos, n);
      r := Some(buf[pos..pos + n]);
      pos := pos + n;
    }

    method Skip(n: nat) returns (r: bool)
      requires Valid()
      modifies this`pos
      ensures Valid() && (r <==> n <= |old(Rest())|)
      ensures if r then Rest() == old(Rest())[n..] else pos == old(pos)
    {
      r := pos + n <= |buf|;
      if r {
        SliceOfRest(buf, pos, n);
        pos := pos + n;
      }
    }

    method ReadU8() returns (r: Option<nat>)
      requires Valid()
      modifies this`pos
      ensures Valid()
      ensures if |old(Rest())| >= 1 then r == Some(Len8(old(Rest()))) && Rest() == old(Rest())[1..]
              else r == None && pos == old(pos)
    {
      if pos >= |buf| {
        return None;
      }
      r := Some(buf[pos]);
      pos := pos + 1;
    }

    method ReadU16() returns (r: Option<nat>)
      requires Valid()
      modifies this`pos
      ensures Valid()
      ensures if |old(Rest())| >= 2 then r == Some(Len16(old(Rest()))) && Rest() == old(Rest())[2..]
              else r == None && pos == old(pos)
    {
      var s := ReadSlice(2);
      if s.Some? {
        r := Some(FromU16(s.value[0], s.value[1]));
      } else {
        r := None;
      }
    }

    method ReadU24() returns (r: Option<nat>)
      requires Valid()
      modifies this`pos
      ensures Valid()
      ensures var b := old(Rest());
              if |b| >= 3 then r == Some(FromU24(b[0], b[1], b[2])) && Rest() == b[3..]
              else r == None && pos == old(pos)
    {
      var s := ReadSlice(3);
      if s.Some? {
        r := Some(FromU24(s.value[0], s.value[1], s.value[2]));
      } else {
        r := None;
      }
    }
  }

  /** A vector with a one-byte length: one name of an ALPN list. */
  method ReadShortVector(r: Reader) returns (name: Option<bytes>)
    requires r.Valid()
    modifies r`pos
    ensures r.Valid()
    ensures var b := old(r.Rest());
            if |b| >= 1 && |b| >= 1 + Len8(b)
            then name == Some(b[1..1 + Len8(b)]) && r.Rest() == b[1 + Len8(b)..]
            else name == None
  {
    ghost var rest := r.Rest();
    var len := r.ReadU8();
    if len.None? {
      return None;
    }
    name := r.ReadSlice(len.value);
    if name.Some? {
      SliceOfRest(rest, 1, len.value);
    }
  }

  /** The name loop of `alpn_has_acme`. */
  method ScanNameList(list: bytes) returns (found: bool)
    ensures found == ScanNames(list)
  {
    var r := new Reader(list);
    ghost var rest := list;
    while true
      invariant r.Valid() && fresh(r) && r.Rest() == rest
      invariant ScanNames(list) == ScanNames(rest)
      decreases |rest|
    {
      var done := r.IsEmpty();
      if done {
        return false;
      }
      var name := ReadShortVector(r);
      if name.None? {
        return false;
      }
      if name.value == ACME_ALPN {
        return true;
      }
      rest := rest[1 + Len8(rest)..];
    }
  }

  /** A vector with a two-byte length. */
  method ReadVector16(r: Reader) returns (v: Option<bytes>)
    requires r.Valid()
    modifies r`pos
    ensures r.Valid()
    ensures var b := old(r.Rest());
            v == if |b| >= 2 && |b| >= 2 + Len16(b) then Some(b[2..2 + Len16(b)]) else None
  {
    ghost var rest := r.Rest();
    var len := r.ReadU16();
    if len.None? {
      return None;
    }
    v := r.ReadSlice(len.value);
    if v.Some? {
      SliceOfRest(rest, 2, len.value);
    }
  }

  function Len24(b: bytes): nat
    requires |b| >= 3
  {
    FromU24(b[0], b[1], b[2])
  }

  /** A vector with a three-byte length. */
  method ReadVector24(r: Reader) returns (v: Option<bytes>)
    requires r.Valid()
    modifies r`pos
    ensures r.Valid()
    ensures var b := old(r.Rest());
            v == if |b| >= 3 && |b| >= 3 + Len24(b) then Some(b[3..3 + Len24(b)]) else None
  {
    ghost var rest := r.Rest();
    var len := r.ReadU24();
    if len.None? {
      return None;
    }
    v := r.ReadSlice(len.value);
    if v.Some? {
      SliceOfRest(rest, 3, len.value);
    }
  }

  /** `alpn_has_acme` */
  method AlpnHasAcmeIn(data: bytes) returns (found: bool)
    ensures found == AlpnHasAcme(data)
  {
    var r := new Reader(data);
    var list := ReadVector16(r);
    if list.None? {
      return false;
    }
    found := ScanNameList(list.value);
  }

  datatype Extension = Extension(typ: nat, data: bytes)

  /** The first extension of a block, field by field, and what follows it. */
  function FirstExtension(b: bytes): Option<(Extension, bytes)> {
    if |b| < 2 || |b[2..]| < 2 || |b[2..][2..]| < Len16(b[2..]) then None
    else Some((Extension(Len16(b), b[2..][2..][..Len16(b[2..])]), b[2..][2..][Len16(b[2..])..]))
  }

  lemma FirstExtensionAt(b: bytes)
    ensures match FirstExtension(b)
            case None => |b| < 4 || |b| < 4 + FromU16(b[2], b[3])
            case Some((e, rest)) =>
              && |b| >= 4 && |b| >= 4 + FromU16(b[2], b[3])
              && e == Extension(FromU16(b[0], b[1]), b[4..4 + FromU16(b[2], b[3])])
              && rest == b[4 + FromU16(b[2], b[3])..]
  {
    if |b| >= 4 {
      assert Len16(b[2..]) == FromU16(b[2], b[3]);
      SliceOfRest(b, 2, 2);
      if |b| >= 4 + Len16(b[2..]) {
        SliceOfRest(b, 4, Len16(b[2..]));
      }
    }
  }

  lemma ScanGoesOn(b: bytes)
    ensures match FirstExtension(b)
            case None => !ScanExts(b)
            case Some((e, rest)) => |rest| < |b| && ScanExts(b) == (Signal(e.typ, e.data) || ScanExts(rest))
  {
    FirstExtensionAt(b);
  }

  /** One extension: type, length and that many bytes. */
  method ReadExtension(r: Reader) returns (ext: Option<Extension>)
    requires r.Valid()
    modifies r`pos
    ensures r.Valid()
    ensures match FirstExtension(old(r.Rest()))
            case None => ext == None
            case Some((e, rest)) => ext == Some(e) && r.Rest() == rest
  {
    var typ := r.ReadU16();
    if typ.None? {
      return None;
    }
    var len := r.ReadU16();
    if len.None? {
      return None;
    }
    var data := r.ReadSlice(len.value);
    if data.None? {
      return None;
    }
    ext := Some(Extension(typ.value, data.value));
  }

  /** The extension loop of `classify`. */
  method ScanExtensions(exts: bytes) returns (found: bool)
    ensures found == ScanExts(exts)
  {
    var r := new Reader(exts);
    ghost var rest := exts;
    while true
      invariant r.Valid() && fresh(r) && r.Rest() == rest
      invariant ScanExts(exts) == ScanExts(rest)
      decreases |rest|
    {
      var done := r.IsEmpty();
      if done {
        return false;
      }
      ScanGoesOn(rest);
      var ext := ReadExtension(r);
      if ext.None? {
        return false;
      }
      if ext.value.typ == EXT_ECH {
        return true;
      }
      if ext.value.typ == EXT_ALPN {
        var acme := AlpnHasAcmeIn(ext.value.data);
        if acme {
          return true;
        }
      }
      rest := r.Rest();
    }
  }

  /** Skips a vector with a one-byte length, as `classify` does for session id and compression. */
  method SkipShortVector(r: Reader) returns (ok: bool)
    requires r.Valid()
    modifies r`pos
    ensures r.Valid()
    ensures SkipVec8(old(r.Rest())) == if ok then Some(r.Rest()) else None
  {
    ghost var rest := r.Rest();
    var len := r.ReadU8();
    if len.None? {
      return false;
    }
    ok := r.Skip(len.value);
    if ok {
      SliceOfRest(rest, 1, len.value);
    }
  }

  /** Skips a vector with a two-byte length, as `classify` does for the cipher suites. */
  method SkipLongVector(r: Reader) returns (ok: bool)
    requires r.Valid()
    modifies r`pos
    ensures r.Valid()
    ensures SkipVec16(old(r.Rest())) == if ok then Some(r.Rest()) else None
  {
    ghost var rest := r.Rest();
    var len := r.ReadU16();
    if len.None? {
      return false;
    }
    ok := r.Skip(len.value);
    if ok {
      SliceOfRest(rest, 2, len.value);
    }
  }

  /** The fields of the hello body before its extension block. */
  method SkipFront(r: Reader) returns (ok: bool)
    requires r.Valid()
    modifies r`pos
    ensures r.Valid()
    ensures AfterFront(old(r.Rest())) == if ok then Some(r.Rest()) else None
  {
    ok := r.Skip(2 + 32);
    if ok {
      ok := SkipShortVector(r);
    }
    if ok {
      ok := SkipLongVector(r);
    }
    if ok {
      ok := SkipShortVector(r);
    }
  }

  /** What reading one layer gives: a verdict already, or the bytes of the next layer. */
  datatype Layer = Verdict(kind: Kind) | Inner(data: bytes)

  function BlockIn(t: bytes): Layer {
    if |t| < 2 then Verdict(Other)
    else if |t| < 2 + Len16(t) then Verdict(Incomplete)
    else Inner(t[2..2 + Len16(t)])
  }

  function BodyIn(record: bytes): Layer {
    if |record| < 1 then Verdict(Incomplete)
    else if record[0] != 1 then Verdict(Other)
    else if |record| < 4 || |record| < 4 + FromU24(record[1], record[2], record[3]) then Verdict(Incomplete)
    else Inner(record[4..4 + FromU24(record[1], record[2], record[3])])
  }

  function RecordIn(buf: bytes): Layer {
    if |buf| < 1 then Verdict(Incomplete)
    else if buf[0] != 0x16 then Verdict(NotTls)
    else if RecordComplete(buf) then Inner(buf[5..5 + FromU16(buf[3], buf[4])])
    else Verdict(Incomplete)
  }

  /** The extension block. */
  method ReadBlock(r: Reader) returns (l: Layer)
    requires r.Valid()
    modifies r`pos
    ensures r.Valid() && l == BlockIn(old(r.Rest()))
  {
    ghost var t := r.Rest();
    var extLen := r.ReadU16();
    if extLen.None? {
      return Verdict(Other);
    }
    var exts := r.ReadSlice(extLen.value);
    if exts.None? {
      return Verdict(Incomplete);
    }
    SliceOfRest(t, 2, extLen.value);
    l := Inner(exts.value);
  }

  /** A hello body, from the version field on. */
  method ClassifyBody(body: bytes) returns (k: Kind)
    ensures k == InHello(body)
  {
    var r := new Reader(body);
    var ok := SkipFront(r);
    if !ok {
      return Incomplete;
    }
    var l := ReadBlock(r);
    if l.Verdict? {
      return l.kind;
    }
    var found := ScanExtensions(l.data);
    k := if found then EchOrAcmeAlpn else Other;
  }

  lemma BodySlice(record: bytes)
    requires |record| >= 1
    ensures var b := record[1..];
            |b| >= 3 ==> Len24(b) == FromU24(record[1], record[2], record[3]) &&
                         (|b| >= 3 + Len24(b) ==> b[3..3 + Len24(b)] == record[4..4 + Len24(b)])
  {
  }

  /** The handshake header inside the first record. */
  method ReadHandshake(record: bytes) returns (l: Layer)
    ensures l == BodyIn(record)
  {
    var r := new Reader(record);
    var hsType := r.ReadU8();
    if hsType.None? {
      return Verdict(Incomplete);
    }
    if hsType.value != 0x01 {
      return Verdict(Other);
    }
    BodySlice(record);
    var body := ReadVector24(r);
    l := if body.Some? then Inner(body.value) else Verdict(Incomplete);
  }

  lemma RecordSlice(buf: bytes)
    requires |buf| >= 3
    ensures var b := buf[1..][2..];
            |b| >= 2 ==> Len16(b) == FromU16(buf[3], buf[4]) &&
                         (|b| >= 2 + Len16(b) ==> b[2..2 + Len16(b)] == buf[5..5 + Len16(b)])
  {
  }

  /** The record layer. */
  method ReadRecord(buf: bytes) returns (l: Layer)
    ensures l == RecordIn(buf)
  {
    var r := new Reader(buf);
    var recordType := r.ReadU8();
    if recordType.None? {
      return Verdict(Incomplete);
    }
    if recordType.value != 0x16 {
      return Verdict(NotTls);
    }
    var ok := r.Skip(2);
    if !ok {
      return Verdict(Incomplete);
    }
    RecordSlice(buf);
    var record := ReadVector16(r);
    l := if record.Some? then Inner(record.value) else Verdict(Incomplete);
  }

  /** `classify` */
  method ClassifyBytes(buf: bytes) returns (k: Kind)
    ensures k == Classify(buf)
  {
    var record := ReadRecord(buf);
    if record.Verdict? {
      return record.kind;
    }
    var body := ReadHandshake(record.data);
    if body.Verdict? {
      return body.kind;
    }
    k := ClassifyBody(body.data);
  }

  // ---------------------------------------------------------------- the peek loop

  const PEEK_CAP: nat := 8 * 1024

  /** One `peek` of the socket: how many bytes are there and whether the deadline has passed by the
      time they are judged; or end of stream, the deadline, an error. */
  datatype Peek = Got(n: nat, late: bool) | Closed | TimedOut | Failed

  /** What `peek` shows when `n` bytes of `wire` have come in. */
  function Shown(wire: bytes, n: nat): bytes {
    wire[..Min(Min(n, |wire|), PEEK_CAP)]
  }

  /** The first 8 KiB of the connection. */
  function Whole(wire: bytes): bytes {
    wire[..Min(|wire|, PEEK_CAP)]
  }

  /** `is_ech_or_acme_handshake` on a connection that carries `wire`, given what each `peek` finds; a
      list that runs out stands for a deadline that passes. */
  method IsEchOrAcmeHandshake(wire: bytes, peeks: seq<Peek>) returns (admit: bool)
    ensures admit == Gate(wire, peeks)
  {
    var i := 0;
    while i < |peeks|
      invariant 0 <= i <= |peeks|
      invariant Gate(wire, peeks) == Gate(wire, peeks[i..])
    {
      var p := peeks[i];
      if !p.Got? || Shown(wire, p.n) == [] {
        return false;
      }
      var shown := Shown(wire, p.n);
      var k := ClassifyBytes(shown);
      if k == EchOrAcmeAlpn {
        return true;
      }
      if k != Incomplete || |shown| == PEEK_CAP || p.late {
        return false;
      }
      assert peeks[i..][1..] == peeks[i + 1..];
      i := i + 1;
    }
    admit := false;
  }

  /** The loop's verdict, peek by peek. */
  function Gate(wire: bytes, peeks: seq<Peek>): bool
    decreases |peeks|
  {
    if peeks == [] || !peeks[0].Got? then false
    else
      var shown := Shown(wire, peeks[0].n);
      if |shown| == 0 then false
      else if Classify(shown) == EchOrAcmeAlpn then true
      else if Classify(shown) != Incomplete || |shown| == PEEK_CAP || peeks[0].late then false
      else Gate(wire, peeks[1..])
  }

  /** Some peek of the list settles the matter: it shows enough for a verdict, or the whole 8 KiB. */
  predicate Settles(wire: bytes, p: Peek) {
    p.Got? && |Shown(wire, p.n)| > 0 && (Classify(Shown(wire, p.n)) != Incomplete || |Shown(wire, p.n)| == PEEK_CAP)
  }

  /** Peek `i` settles the matter, with no close, no error and no deadline before it. */
  predicate SettlesAt(wire: bytes, peeks: seq<Peek>, i: nat) {
    && i < |peeks| && Settles(wire, peeks[i])
    && forall j :: 0 <= j < i ==> peeks[j].Got? && |Shown(wire, peeks[j].n)| > 0 && !peeks[j].late
  }

  /** The loop runs until a peek settles the matter. */
  ghost predicate RunsToVerdict(wire: bytes, peeks: seq<Peek>) {
    exists i: nat :: SettlesAt(wire, peeks, i)
  }

  lemma ShownVerdict(wire: bytes, n: nat)
    ensures Classify(Shown(wire, n)) != Incomplete ==> Classify(Whole(wire)) == Classify(Shown(wire, n))
    ensures |Shown(wire, n)| == PEEK_CAP ==> Shown(wire, n) == Whole(wire)
  {
    var shown := Shown(wire, n);
    assert Whole(wire) == shown + Whole(wire)[|shown|..];
    VerdictIsStable(shown, Whole(wire)[|shown|..]);
  }

  /** The gate never admits a connection whose first 8 KiB would not be admitted, whatever the peeks,
      their timing and their order. */
  lemma {:induction false} GateIsSound(wire: bytes, peeks: seq<Peek>)
    ensures Gate(wire, peeks) ==> Classify(Whole(wire)) == EchOrAcmeAlpn
    decreases |peeks|
  {
    if peeks != [] && peeks[0].Got? {
      ShownVerdict(wire, peeks[0].n);
      GateIsSound(wire, peeks[1..]);
    }
  }

  lemma {:induction false} SettledAnswer(wire: bytes, peeks: seq<Peek>, i: nat)
    requires SettlesAt(wire, peeks, i)
    ensures Gate(wire, peeks) <==> Classify(Whole(wire)) == EchOrAcmeAlpn
    decreases i
  {
    ShownVerdict(wire, peeks[0].n);
    if !Settles(wire, peeks[0]) {
      assert forall j :: 0 <= j <= i - 1 ==> peeks[1..][j] == peeks[j + 1];
      SettledAnswer(wire, peeks[1..], i - 1);
    }
  }

  /** The verdict does not depend on how the bytes are segmented: however they become visible, a loop
      that runs to a verdict answers as `classify` does on the first 8 KiB. */
  lemma GateIgnoresSegmentation(wire: bytes, peeks: seq<Peek>)
    requires RunsToVerdict(wire, peeks)
    ensures Gate(wire, peeks) <==> Classify(Whole(wire)) == EchOrAcmeAlpn
  {
    var i: nat :| SettlesAt(wire, peeks, i);
    SettledAnswer(wire, peeks, i);
  }

  /** A peek that leaves the matter open in time for another: some bytes, not all 8192, no verdict yet and
      the deadline not passed. */
  predicate GoesOn(wire: bytes, p: Peek) {
    && p.Got? && !p.late
    && 0 < |Shown(wire, p.n)| < 8192
    && Classify(Shown(wire, p.n)) == Incomplete
  }

  /** What the loop looks at: the bytes that have come in, up to 8192. */
  lemma ShownExactly(wire: bytes, n: nat)
    ensures Shown(wire, n) <= wire && |Shown(wire, n)| == Min(n, Min(|wire|, 8192))
  {
  }

  /** Peek `i` shows an admitted hello, and every one before it left the matter open in time. */
  predicate AdmitsAt(wire: bytes, peeks: seq<Peek>, i: nat) {
    && i < |peeks| && (forall j :: 0 <= j < i ==> GoesOn(wire, peeks[j]))
    && peeks[i].Got? && |Shown(wire, peeks[i].n)| > 0 && Classify(Shown(wire, peeks[i].n)) == EchOrAcmeAlpn
  }

  lemma {:induction false} GateFinds(wire: bytes, peeks: seq<Peek>) returns (i: nat)
    requires Gate(wire, peeks)
    ensures AdmitsAt(wire, peeks, i)
    decreases |peeks|
  {
    if Classify(Shown(wire, peeks[0].n)) == EchOrAcmeAlpn {
      i := 0;
    } else {
      var k := GateFinds(wire, peeks[1..]);
      assert forall j :: 1 <= j <= k + 1 ==> peeks[j] == peeks[1..][j - 1];
      i := k + 1;
    }
  }

  lemma {:induction false} GateAdmits(wire: bytes, peeks: seq<Peek>, i: nat)
    requires AdmitsAt(wire, peeks, i)
    ensures Gate(wire, peeks)
    decreases i
  {
    if i > 0 {
      assert GoesOn(wire, peeks[0]);
      assert forall j :: 0 <= j <= i - 1 ==> peeks[1..][j] == peeks[j + 1];
      GateAdmits(wire, peeks[1..], i - 1);
    }
  }

  /** The loop admits exactly when some peek shows an admitted hello and every one before it left the
      matter open in time: a close, an error, a refusal, a full buffer or a late peek ends it. */
  lemma GateExactly(wire: bytes, peeks: seq<Peek>)
    ensures Gate(wire, peeks) <==> exists i: nat :: AdmitsAt(wire, peeks, i)
  {
    if Gate(wire, peeks) {
      var i := GateFinds(wire, peeks);
    }
    forall i: nat | AdmitsAt(wire, peeks, i)
      ensures Gate(wire, peeks)
    {
      GateAdmits(wire, peeks, i);
    }
  }

  /** A late peek that shows no whole hello ends the loop, whatever the later peeks would show. */
  lemma LateEndsLoop(wire: bytes, p: Peek, later: seq<Peek>)
    requires p.Got? && p.late && Classify(Shown(wire, p.n)) == Incomplete
    ensures !Gate(wire, [p] + later)
  {
  }

  /** A connection whose hello is admitted and fits the 8192 bytes is let through once it has been shown:
      peeks that show part of it, in time, do no harm. */
  lemma {:induction false} HelloOnceShown(hello: bytes, more: bytes, peeks: seq<Peek>)
    requires Classify(hello) == EchOrAcmeAlpn && |hello| <= 8192
    requires peeks != [] && (forall i :: 0 <= i < |peeks| ==> peeks[i].Got? && peeks[i].n > 0)
    requires peeks[|peeks| - 1].n >= |hello| && forall i :: 0 <= i < |peeks| - 1 ==> !peeks[i].late
    ensures Gate(hello + more, peeks)
    decreases |peeks|
  {
    var wire := hello + more;
    var shown := Shown(wire, peeks[0].n);
    if peeks[0].n >= |hello| {
      PrefixVerdict(hello, shown);
    } else {
      PrefixVerdict(shown, hello);
      if Classify(shown) == Incomplete {
        HelloOnceShown(hello, more, peeks[1..]);
      }
    }
  }

  lemma PrefixVerdict(a: bytes, b: bytes)
    requires a <= b
    ensures Classify(a) != Incomplete ==> Classify(b) == Classify(a)
  {
    assert b == a + b[|a|..];
    VerdictIsStable(a, b[|a|..]);
  }
}
