/**
 The ClientHello peeker of `src/clienthello.rs`: what `classify` answers on every byte string, as a
 function; `ClientHelloImpl` proves the cursor-based parser computes it.
 */
module ClientHello {
  import opened Bytes
  import opened Wrappers

  datatype Kind = Incomplete | NotTls | EchOrAcmeAlpn | Other

  const EXT_ECH: nat := 0xfe0d
  const EXT_ALPN: nat := 0x0010

  /** `acme-tls/1` */
  const ACME_ALPN: bytes := [0x61, 0x63, 0x6d, 0x65, 0x2d, 0x74, 0x6c, 0x73, 0x2f, 0x31]

  /** The length fields at the start of `b`. */
  function Len8(b: bytes): nat
    requires |b| >= 1
  {
    b[0]
  }

  function Len16(b: bytes): nat
    requires |b| >= 2
  {
    FromU16(b[0], b[1])
  }

  /** The rest of `b` after a vector with a one-byte length, if the whole vector is there. */
  function SkipVec8(b: bytes): Option<bytes> {
    if |b| < 1 || |b| < 1 + Len8(b) then None else Some(b[1 + Len8(b)..])
  }

  function SkipVec16(b: bytes): Option<bytes> {
    if |b| < 2 || |b| < 2 + Len16(b) then None else Some(b[2 + Len16(b)..])
  }

  /** Scan of an ALPN name list; stops at the first name that does not fit. */
  function ScanNames(list: bytes): bool
    decreases |list|
  {
    if |list| < 1 || |list| < 1 + Len8(list) then false
    else list[1..1 + Len8(list)] == ACME_ALPN || ScanNames(list[1 + Len8(list)..])
  }

  function AlpnHasAcme(data: bytes): bool {
    if |data| < 2 || |data| < 2 + Len16(data) then false
    else ScanNames(data[2..2 + Len16(data)])
  }

  predicate Signal(typ: nat, data: bytes) {
    typ == EXT_ECH || (typ == EXT_ALPN && AlpnHasAcme(data))
  }

  /** Scan of an extension block; stops at the first extension that does not fit. */
  function ScanExts(exts: bytes): bool
    decreases |exts|
  {
    if |exts| < 4 || |exts| < 4 + FromU16(exts[2], exts[3]) then false
    else
      var len := FromU16(exts[2], exts[3]);
      Signal(FromU16(exts[0], exts[1]), exts[4..4 + len]) || ScanExts(exts[4 + len..])
  }

  /** The part of a hello body after version, random, session id, cipher suites and compression. */
  function AfterFront(body: bytes): Option<bytes> {
    if |body| < 34 then None
    else match SkipVec8(body[34..])
      case None => None
      case Some(b1) =>
        match SkipVec16(b1)
        case None => None
        case Some(b2) => SkipVec8(b2)
  }

  function InExts(t: bytes): Kind {
    if |t| < 2 then Other
    else if |t| < 2 + Len16(t) then Incomplete
    else if ScanExts(t[2..2 + Len16(t)]) then EchOrAcmeAlpn
    else Other
  }

  function InHello(body: bytes): Kind {
    match AfterFront(body)
    case None => Incomplete
    case Some(t) => InExts(t)
  }

  function InRecord(record: bytes): Kind {
    if |record| < 1 then Incomplete
    else if record[0] != 1 then Other
    else if |record| < 4 || |record| < 4 + FromU24(record[1], record[2], record[3]) then Incomplete
    else InHello(record[4..4 + FromU24(record[1], record[2], record[3])])
  }

  /** The first record is all there. */
  predicate RecordComplete(buf: bytes) {
    |buf| >= 5 && buf[0] == 0x16 && |buf| >= 5 + FromU16(buf[3], buf[4])
  }

  function Classify(buf: bytes): Kind {
    if |buf| < 1 then Incomplete
    else if buf[0] != 0x16 then NotTls
    else if RecordComplete(buf) then InRecord(buf[5..5 + FromU16(buf[3], buf[4])])
    else Incomplete
  }

  // ---------------------------------------------------------------- prefix stability

  /** More bytes never change a verdict, and once the first record is complete they never change
      anything: an Incomplete then is one for ever. */
  lemma VerdictIsStable(buf: bytes, more: bytes)
    ensures Classify(buf) != Incomplete || RecordComplete(buf) ==> Classify(buf + more) == Classify(buf)
  {
    if |buf| >= 1 {
      assert (buf + more)[0] == buf[0];
    }
    if RecordComplete(buf) {
      var n := 5 + FromU16(buf[3], buf[4]);
      assert (buf + more)[..n] == buf[..n];
      assert (buf + more)[5..n] == buf[5..n];
    }
  }

  /** A hello that goes on in a second record is never admitted, whatever follows. */
  lemma SplitHelloNeverAdmitted(buf: bytes, more: bytes)
    requires RecordComplete(buf)
    requires var r := buf[5..5 + FromU16(buf[3], buf[4])];
             |r| >= 4 && r[0] == 1 && |r| < 4 + FromU24(r[1], r[2], r[3])
    ensures Classify(buf + more) == Incomplete
  {
    VerdictIsStable(buf, more);
  }
}
