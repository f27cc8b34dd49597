/**
 `WsByteStream` of `src/ws.rs`: WebSocket messages read as one byte stream. The socket underneath is a
 script of what its `poll_next` answers, call by call.
 */
module WsStream {
  import opened Bytes

  datatype Message = Binary(data: bytes) | Text(data: bytes) | Ping | Pong | Frame | Close

  /** An answer of `poll_next`: nothing yet, the end, an error, a message. */
  datatype Next = NotYet | End | Broken | Got(message: Message)

  /** An answer of `poll_read`; a ready one with no bytes reports the end, if there was room for bytes. */
  datatype Read = Pending | Ready(data: bytes) | Failed

  datatype Reader = Reader(coming: seq<Next>, readBuf: bytes, eof: bool)

  /** One `poll_read` with `room` bytes of space. */
  function PollRead(r: Reader, room: nat): (Read, Reader)
    decreases |r.coming|
  {
    if r.readBuf != [] then
      var n := Min(room, |r.readBuf|);
      (Ready(r.readBuf[..n]), r.(readBuf := r.readBuf[n..]))
    else if r.eof then (Ready([]), r)
    else if r.coming == [] then (Pending, r)
    else
      var rest := r.(coming := r.coming[1..]);
      match r.coming[0]
      case NotYet => (Pending, rest)
      case End => (Ready([]), rest.(eof := true))
      case Broken => (Failed, rest)
      case Got(Binary(d)) => PollRead(rest.(readBuf := d), room)
      case Got(Text(d)) => PollRead(rest.(readBuf := d), room)
      case Got(Close) => PollRead(rest.(eof := true), room)
      case Got(_) => PollRead(rest, room)
  }

  class WebSocketStream {
    var coming: seq<Next>

    constructor (script: seq<Next>)
      ensures coming == script
    {
      coming := script;
    }

    method PollNext() returns (next: Next)
      modifies this
      ensures if old(coming) == [] then next == NotYet && coming == []
              else next == old(coming)[0] && coming == old(coming)[1..]
    {
      if coming == [] {
        return NotYet;
      }
      next := coming[0];
      coming := coming[1..];
    }
  }

  class WsByteStream {
    const inner: WebSocketStream
    var readBuf: bytes
    var eof: bool

    constructor (inner: WebSocketStream)
      ensures this.inner == inner && View() == Reader(inner.coming, [], false)
    {
      this.inner := inner;
      readBuf := [];
      eof := false;
    }

    ghost function View(): Reader
      reads this, inner
    {
      Reader(inner.coming, readBuf, eof)
    }

    /** `poll_read` */
    method Poll(room: nat) returns (read: Read)
      modifies this, inner
      ensures (read, View()) == PollRead(old(View()), room)
    {
      while true
        invariant PollRead(old(View()), room) == PollRead(View(), room)
        decreases |inner.coming|, !eof, |readBuf| == 0
      {
        if readBuf != [] {
          var n := Min(room, |readBuf|);
          read := Ready(readBuf[..n]);
          readBuf := readBuf[n..];
          return;
        }
        if eof {
          return Ready([]);
        }
        if inner.coming == [] {
          return Pending;
        }
        var next := inner.PollNext();
        match next {
          case NotYet =>
            return Pending;
          case End =>
            eof := true;
            return Ready([]);
          case Broken =>
            return Failed;
          case Got(message) =>
            match message {
              case Binary(data) =>
                readBuf := data;
              case Text(data) =>
                readBuf := data;
              case Close =>
                eof := true;
              case _ =>
            }
        }
      }
    }
  }

  // ---------------------------------------------------------------- what a stream of messages carries

  predicate Ends(next: Next) {
    next.End? || (next.Got? && next.message.Close?)
  }

  /** The data of the messages up to the end or the close, in order. */
  function Payload(coming: seq<Next>): bytes {
    if coming == [] || Ends(coming[0]) then []
    else
      (if coming[0].Got? && (coming[0].message.Binary? || coming[0].message.Text?) then coming[0].message.data else [])
      + Payload(coming[1..])
  }

  /** What a reader still has to give. */
  function Remaining(r: Reader): bytes {
    r.readBuf + if r.eof then [] else Payload(r.coming)
  }

  function Data(read: Read): bytes {
    if read.Ready? then read.data else []
  }

  /** A poll moves bytes from what remains to its caller: none lost, none invented, none reordered. */
  lemma {:induction false} PollConserves(r: Reader, room: nat)
    ensures Remaining(r) == Data(PollRead(r, room).0) + Remaining(PollRead(r, room).1)
    decreases |r.coming|
  {
    if r.readBuf != [] {
      var n := Min(room, |r.readBuf|);
      assert r.readBuf[..n] + r.readBuf[n..] == r.readBuf;
      Assoc(r.readBuf[..n], r.readBuf[n..], if r.eof then [] else Payload(r.coming));
    } else if !r.eof && r.coming != [] {
      var rest := r.(coming := r.coming[1..]);
      match r.coming[0]
      case Got(Binary(d)) => PollConserves(rest.(readBuf := d), room);
      case Got(Text(d)) => PollConserves(rest.(readBuf := d), room);
      case Got(Close) => PollConserves(rest.(eof := true), room);
      case Got(_) => PollConserves(rest, room);
      case _ =>
    }
  }

  /** Messages that bring nothing to read. */
  predicate Skipped(next: Next) {
    next.Got? &&
    match next.message
    case Binary(d) => d == []
    case Text(d) => d == []
    case Close => false
    case _ => true
  }

  /** The answers before the first that matters. */
  function Skips(coming: seq<Next>): (n: nat)
    ensures n <= |coming|
  {
    if coming != [] && Skipped(coming[0]) then 1 + Skips(coming[1..]) else 0
  }

  /** With nothing buffered, the first answer that matters decides the poll: a pause and an exhausted socket
      make it wait, an error is reported, the end and a Close end the stream, and a message is handed out
      as far as there is room. With something buffered, that is handed out. */
  lemma {:induction false} FirstThatMatters(r: Reader, room: nat)
    ensures var (read, r') := PollRead(r, room);
            if r.readBuf != [] then Handed(r.readBuf, r, room, read, r')
            else if r.eof then read == Ready([]) && r' == r
            else
              var n := Skips(r.coming);
              if n == |r.coming| then read == Pending && r' == r.(coming := [])
              else
                var rest := r.(coming := r.coming[n + 1..]);
                match r.coming[n]
                case NotYet => read == Pending && r' == rest
                case Broken => read == Failed && r' == rest
                case End => read == Ready([]) && r' == rest.(eof := true)
                case Got(m) =>
                  if m.Close? then read == Ready([]) && r' == rest.(eof := true)
                  else (m.Binary? || m.Text?) && Handed(m.data, rest, room, read, r')
    decreases |r.coming|
  {
    if r.readBuf == [] && !r.eof && r.coming != [] && Skipped(r.coming[0]) {
      var rest := r.(coming := r.coming[1..]);
      assert PollRead(r, room) == PollRead(rest, room);
      FirstThatMatters(rest, room);
      var n := Skips(rest.coming);
      if n < |rest.coming| {
        assert rest.coming[n + 1..] == r.coming[n + 2..];
      }
    }
  }

  /** As much of `b` as there is room for goes out; the rest is kept for the next poll. */
  predicate Handed(b: bytes, r: Reader, room: nat, read: Read, r': Reader) {
    read.Ready? && |read.data| == Min(room, |b|) && read.data + r'.readBuf == b && r' == r.(readBuf := r'.readBuf)
  }

  predicate AtEof(r: Reader) {
    r.eof && r.readBuf == []
  }

  /** A poll with room answers with no bytes exactly when it leaves the reader at its end, and the end is
      final: every later poll reports it again. */
  lemma {:induction false} EmptyMeansEof(r: Reader, room: nat)
    requires room > 0
    ensures PollRead(r, room).0 == Ready([]) ==> AtEof(PollRead(r, room).1)
    ensures AtEof(r) ==> PollRead(r, room) == (Ready([]), r)
    decreases |r.coming|
  {
    if r.readBuf == [] && !r.eof && r.coming != [] {
      var rest := r.(coming := r.coming[1..]);
      match r.coming[0]
      case Got(Binary(d)) => EmptyMeansEof(rest.(readBuf := d), room);
      case Got(Text(d)) => EmptyMeansEof(rest.(readBuf := d), room);
      case Got(Close) => EmptyMeansEof(rest.(eof := true), room);
      case Got(_) => EmptyMeansEof(rest, room);
      case _ =>
    }
  }

  /** The end comes only from the socket. */
  ghost predicate WillEnd(r: Reader) {
    r.eof || exists i :: 0 <= i < |r.coming| && Ends(r.coming[i])
  }

  /** How much there is still to do. */
  function Left(r: Reader): nat {
    |r.coming| + |Remaining(r)|
  }

  lemma WillEndTail(r: Reader)
    requires r.coming != [] && !r.eof && !Ends(r.coming[0])
    ensures WillEnd(r.(coming := r.coming[1..])) == WillEnd(r)
  {
    if WillEnd(r) {
      var i :| 0 <= i < |r.coming| && Ends(r.coming[i]);
      assert Ends(r.coming[1..][i - 1]);
    }
    if WillEnd(r.(coming := r.coming[1..])) {
      var i :| 0 <= i < |r.coming[1..]| && Ends(r.coming[1..][i]);
      assert Ends(r.coming[i + 1]);
    }
  }

  /** A poll neither makes an end nor loses one, and with room it gets on while an end is to come. */
  lemma {:induction false} PollGetsOn(r: Reader, room: nat)
    ensures WillEnd(PollRead(r, room).1) == WillEnd(r)
    ensures |PollRead(r, room).1.coming| <= |r.coming|
    ensures WillEnd(r) && !AtEof(r) && room > 0 ==> Left(PollRead(r, room).1) < Left(r)
    decreases |r.coming|
  {
    PollConserves(r, room);
    if r.readBuf == [] && !r.eof && r.coming != [] {
      var rest := r.(coming := r.coming[1..]);
      if Ends(r.coming[0]) {
        assert WillEnd(r);
      } else {
        WillEndTail(r);
      }
      match r.coming[0]
      case Got(Binary(d)) => PollGetsOn(rest.(readBuf := d), room);
      case Got(Text(d)) => PollGetsOn(rest.(readBuf := d), room);
      case Got(Close) => PollGetsOn(rest.(eof := true), room);
      case Got(_) => PollGetsOn(rest, room);
      case _ =>
    }
  }

  // ---------------------------------------------------------------- whole runs

  /** The reader after a run of polls, and all the bytes the polls returned. */
  function Run(r: Reader, rooms: seq<nat>): (bytes, Reader)
    decreases |rooms|
  {
    if rooms == [] then ([], r)
    else
      var (read, next) := PollRead(r, rooms[0]);
      var (more, last) := Run(next, rooms[1..]);
      (Data(read) + more, last)
  }

  lemma {:induction false} RunConserves(r: Reader, rooms: seq<nat>)
    ensures Remaining(r) == Run(r, rooms).0 + Remaining(Run(r, rooms).1)
    ensures WillEnd(Run(r, rooms).1) == WillEnd(r)
    decreases |rooms|
  {
    if rooms != [] {
      var (read, next) := PollRead(r, rooms[0]);
      PollConserves(r, rooms[0]);
      PollGetsOn(r, rooms[0]);
      RunConserves(next, rooms[1..]);
      Assoc(Data(read), Run(next, rooms[1..]).0, Remaining(Run(next, rooms[1..]).1));
    }
  }

  lemma {:induction false} RunReachesEof(r: Reader, rooms: seq<nat>)
    requires WillEnd(r) && |rooms| >= Left(r) && forall i :: 0 <= i < |rooms| ==> rooms[i] > 0
    ensures AtEof(Run(r, rooms).1)
    decreases |rooms|
  {
    if rooms == [] {
      assert r.coming == [] && Remaining(r) == [];
    } else {
      var next := PollRead(r, rooms[0]).1;
      PollGetsOn(r, rooms[0]);
      EmptyMeansEof(r, rooms[0]);
      if AtEof(r) {
        EofStays(r, rooms);
      } else {
        RunReachesEof(next, rooms[1..]);
      }
    }
  }

  lemma {:induction false} EofStays(r: Reader, rooms: seq<nat>)
    requires AtEof(r)
    ensures Run(r, rooms) == ([], r)
    decreases |rooms|
  {
    if rooms != [] {
      EofStays(r, rooms[1..]);
      assert PollRead(r, rooms[0]) == (Ready([]), r);
      var none: bytes := [];
      assert Data(Ready([])) + none == none;
    }
  }

  /** Whatever messages come and however much room each poll has, what was read is a prefix of the payload;
      it is all of it once the end is reported, and the end is reported only if the socket ended. */
  lemma ReadsPayload(coming: seq<Next>, rooms: seq<nat>)
    ensures var (read, r) := Run(Reader(coming, [], false), rooms);
            && read <= Payload(coming)
            && (AtEof(r) ==> read == Payload(coming) && exists i :: 0 <= i < |coming| && Ends(coming[i]))
  {
    var start := Reader(coming, [], false);
    assert Remaining(start) == Payload(coming);
    RunConserves(start, rooms);
    if AtEof(Run(start, rooms).1) {
      assert Remaining(Run(start, rooms).1) == [];
      assert WillEnd(start);
    }
  }

  /** Enough polls with room read the whole payload of a stream that ends, errors and pauses included, and
      then report the end. */
  lemma EnoughPollsReadAll(coming: seq<Next>, rooms: seq<nat>)
    requires exists i :: 0 <= i < |coming| && Ends(coming[i])
    requires |rooms| >= |coming| + |Payload(coming)| && forall i :: 0 <= i < |rooms| ==> rooms[i] > 0
    ensures Run(Reader(coming, [], false), rooms).0 == Payload(coming) && AtEof(Run(Reader(coming, [], false), rooms).1)
  {
    var start := Reader(coming, [], false);
    assert Remaining(start) == Payload(coming);
    RunReachesEof(start, rooms);
    ReadsPayload(coming, rooms);
  }
}
