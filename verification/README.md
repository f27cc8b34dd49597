# A model of the HTTP/3 tunnel, its gate and its codecs

This project models the parts of the tunnel plugin where correctness depends on how several pieces fit
together, and proves what they promise for every input, every interleaving and every run.

* **The data plane** (`src/quic.rs`, driven by `src/h3_server.rs` and `src/h3_client.rs`). Bridge tasks push
  messages into one bounded egress channel; an event loop owns the stream map and moves bytes to and from the
  HTTP/3 library; readers free channel slots and wake the loop through a single-permit `Notify`.
  `StreamCore` says what each operation does to one stream, on values. `QuicImpl` has the objects themselves
  and proves that their loops compute those functions. `StreamModel` holds the invariant of one stream,
  `EventLoop` the step system of a whole process (all connections, streams and bridges, every interleaving),
  `EventLoopProof` that each step keeps the invariant, `EventLoopTheorems` what follows for every run.
  `Observation` and `Tunnel` join a client and a server and prove that each direction of each stream refines
  a first-in first-out byte pipe. `Causes` says what may drop a stream, what follows, and which streams get a
  bridge, and states end-to-end delivery for every run without such a cause; `Progress` that the loop is never
  stuck between two waits. `Adapter` shows that whole calls are runs of the step system.
* **Open requests** (`src/h3_client.rs`): `OpenRequests` follows each request from the accept loop through
  parking, sessions and retries.
* **The ClientHello gate** (`src/clienthello.rs`, `src/server.rs`): `ClientHello` is the parser as a function,
  `HelloGrammar` the wire format and the proof that both agree on every byte string, `ClientHelloImpl` the
  cursor-based parser and the peek loop.
* **Codecs**: `Sip003` (`src/sip003.rs`), `Alpn` (`src/tls_server.rs`), `EchKey` with `Utf8` (`src/ech.rs`).
* **Certificate rotation** (`src/h3_server.rs`): `CertCache`.
* **The WebSocket adapter** (`src/ws.rs`): `WsStream`.

The HTTP/3 library, the channels and the network appear only as contracts. `send_body` takes a prefix, answers
Done, or fails for good. `recv_body` yields between one and RECV_CHUNK bytes, Done, or a lasting error. A Data
event is queued for the next byte only after Done; headers that wait on a stream are reported before its other
events, and on the server a stream has headers once. Stream ids are new and increasing. The client's one
connection has the empty key, a server's connections have connection ids. QUIC delivers in order and without loss (section 2.2 of RFC 9000)
until a reset or the end of the connection. Within these limits every behaviour is allowed: the library's
answers are an arbitrary list (a plan), and statements hold for all plans.

Where code and documentation differ, the model follows the code:

* `src/tls_server.rs:185-189` says that an ACME offer without a matching challenge falls through to `h2`; the
  code answers with a fatal alert (`src/tls_server.rs:218`), and `Alpn.SelectionPriority` states that.
* `src/clienthello.rs:22-23` says that more bytes may complete an Incomplete hello. Once the first record is
  complete they cannot: `ClientHello.SplitHelloNeverAdmitted`. `Other` is also the answer for another handshake
  message and for a hello without an extension length: `HelloGrammar.RefusedExactly`.
* The gate and the ALPN callback read an offer differently after an empty name: `Alpn.EmptyNameHidesAcme` is a
  concrete offer, `Alpn.GateAndCallbackAgree` says exactly when it happens.
* Certificate generations are a `u64` that wraps: `CertCache.CacheIsCoherent` holds up to 2^64 generations and
  `CertCache.WrapGoesStale` shows a stale answer with one more.
* A transport error clears `pending` and marks the fin sent without sending it (`src/quic.rs:343-347`), so
  conservation and fin order are stated until the first error of the stream.

## Model

| member | source | states |
|---|---|---|
| `Tunnel.BytesComeThrough` | src/quic.rs:280-358 | After every run of both event loops, all bridges and the network: for every stream, in each direction, what the far bridge has read is a prefix of what the near bridge wrote; if the far bridge saw EOF and nothing broke the stream at either end, the near bridge had shut down and every byte was read |
| `Causes.CleanRunDelivers` | src/quic.rs:280-358 | The same with nothing excused but what the run shows: if no step resets or refuses the stream at either end, ends its connection or a loop, or brings a transport error on it, then in each direction what was read is a prefix of what was written, and a bridge that saw EOF has read everything the other wrote before shutting down |
| `Tunnel.TunnelRefinesPipes` | src/quic.rs:490-573 | Every step of the joined system is, for each direction of each stream, one step (or none) of a first-in first-out byte pipe that is written, shut, read and ends |
| `Tunnel.RunRefinesPipes` | src/quic.rs:280-573 | The states a direction goes through during any run form a run of that pipe |
| `Tunnel.TunnelKeepsInv` | src/quic.rs:327-358 | Each step keeps both loops' invariants and the wire: what has arrived is a prefix of what was handed to the library, and all of it once the fin has arrived |
| `EventLoopTheorems.OutboundConservation` | src/quic.rs:327-358 | Until the transport fails or the stream is cut, bytes accepted by `poll_write` equal bytes accepted by `send_body`, then flattened `pending`, then this stream's part of the shared egress channel; in any interleaving and map order, with no other stream's bytes |
| `EventLoopTheorems.FinAfterEverything` | src/quic.rs:350-356 | The fin is handed over at most once per stream and only when every byte written before the shutdown was accepted; no Data follows Fin and nothing follows Closed in what the bridge sends |
| `Observation.FinIsLast` | src/quic.rs:350-356 | After the fin no step hands over another byte or another fin |
| `EventLoopTheorems.ReapingLosesNothing` | src/quic.rs:367-384 | A stream leaves the map by reaping only after its close notice, with none of its messages left in the egress channel; unless the transport failed, the library then has every byte, and the fin exactly if there was a shutdown |
| `EventLoopTheorems.InboundConservation` | src/quic.rs:294-320 | While the bridge lives, bytes taken from `recv_body` equal bytes returned by `poll_read`, then `rx_buf`, then the channel; what is buffered never exceeds (32 + 1) * 16384 bytes |
| `EventLoopTheorems.HonestEof` | src/quic.rs:298-309 | A bridge that saw EOF on a stream that was not reset, refused, lost or failed has read every byte that arrived, and the peer's fin has arrived |
| `EventLoopTheorems.NoLostWakeup` | src/h3_server.rs:221-230 | In every reachable state with the loop parked, a stream with undelivered bytes or an unreported end is readable behind a full channel, or readable with a stored permit, or its reader is about to store one; the one exception is an event left over on a connection whose `h3.poll` failed |
| `Causes.CutHasCause` | src/h3_server.rs:416-450 | Over every run, a stream is dropped before its bridge is done only if the run holds a reset or refusal of that very stream, the end of its own connection or of the loop, or an open whose requester had gone; Data and Finished events never drop one, and the end of a connection drops no stream of another |
| `Causes.CutIsForGood` | src/h3_server.rs:436-439 | After a reset, a refusal or the end of its connection, whatever happens later, the sender half of the stream's channel is closed, so its bridge reads what the channel holds and then EOF |
| `Causes.BridgeIffAccepted` | src/h3_server.rs:480-520 | Over every run, a stream gets a bridge if and only if the server accepted its headers, or the client opened it for a requester that waits; refused headers never lead to one |
| `Causes.CutStep` | src/h3_client.rs:369-395 | The same of a single step, for every action of the loop, the bridges and the network |
| `Causes.BrokenStep` | src/quic.rs:343-347 | A half of a stream fails only in a step in which the library reports a transport error on that stream |
| `EventLoopTheorems.EveryWakeServes` | src/h3_server.rs:181-239 | Whatever wakes the loop, the connections concerned are serviced before it waits again: all of them after a signal or a timeout, otherwise the one the packet or message is for |
| `Progress.NeverStuck` | src/h3_server.rs:362-392 | In every reachable state in which the loop neither waits nor has returned it has a next step of its own, whatever bridges and network do |
| `Progress.WakesForCause` | src/h3_server.rs:181-239 | A waiting loop can be woken by every message, permit, packet or timer there is |
| `Progress.VisitGetsOn` | src/quic.rs:286-357 | A visit of a pump takes the stream off the list or takes bytes from the library, of which there are finitely many |
| `Progress.StageGetsOn` | src/h3_server.rs:382-387 | A stage that ends gives way to the next one, and the last to the next connection or to the wait |
| `Progress.EventGetsOn` | src/h3_server.rs:416-450 | An event handled is an event less, on that stream and no other |
| `Progress.BridgeGoesOn` | src/quic.rs:468-480 | A bridge writes exactly while fewer than 256 messages wait, can always give up its stream, and after that always ends once there is room or the loop has gone |
| `EventLoopTheorems.EgressBound` | src/h3_server.rs:47-47 | Over every run the egress channel holds at most 256 messages, and a writer finds no room exactly while it holds 256 |
| `EventLoopTheorems.NothingHeldBack` | src/h3_server.rs:382-387 | With the loop parked, a registered stream that has bytes or a fin to send, or whose bridge has ended, is blocked by flow control and nothing else |
| `EventLoopTheorems.IdleMeansDelivered` | src/h3_client.rs:219-250 | When all is idle (loop parked, no permit, empty egress channel, reader waiting) every arrived byte has been read, no end is unreported, and every written byte is with the library unless flow control holds it or the transport failed |
| `EventLoopTheorems.RunKeepsInv` | src/h3_server.rs:178-250 | Every run of a loop with its connections, streams and bridges keeps the invariant |
| `EventLoopProof.StepKeepsInv` | src/h3_server.rs:178-250 | Every single action keeps it: select branches, events, each pump visit, each bridge step, network input, opening, closing and exit |
| `EventLoopProof.DequeueKeeps` | src/h3_server.rs:211-219 | Taking one message from the shared egress channel, applying it if the stream is still there and starting that connection's service, keeps the invariant |
| `EventLoopProof.InOneKeeps` | src/quic.rs:286-322 | One iteration of `pump_inbound` at any point between bridge steps keeps it, wake-ups included |
| `EventLoopProof.OutOneKeeps` | src/quic.rs:332-357 | One stream's turn in `pump_outbound` keeps it |
| `EventLoopProof.ReapOneKeeps` | src/quic.rs:371-383 | One turn of `reap_streams` keeps it |
| `EventLoopProof.BridgeKeeps` | src/quic.rs:490-520 | A reading, notifying or dropping step of a bridge keeps it |
| `EventLoopProof.SendKeeps` | src/quic.rs:523-545 | A write, shutdown or close notice put into the egress channel keeps it |
| `EventLoopProof.EventKeeps` | src/h3_server.rs:416-450 | One event of `poll_h3` keeps the invariant; what each event does to the stream is stated by the `Causes` rows |
| `EventLoopProof.ParkKeeps` | src/h3_server.rs:241-248 | Opening and dropping connections, opening client streams and the end of the loop keep it |
| `Observation.ViewStep` | src/quic.rs:280-358 | What every action of a process may change of what the two ends of any one stream can see |
| `Observation.HandedOnSend` | src/quic.rs:327-358 | A pass of `pump_outbound` only extends what the library was given, in order, within what was written, and hands the fin over last |
| `StreamCore.PumpOutConserves` | src/quic.rs:333-356 | For every sequence of library answers (prefix, Done, sticky error) one stream's turn loses, repeats or reorders no byte before the error; it stops early only on flow control; a fin goes out once, only when owed and with nothing in front of it |
| `StreamCore.DrainConserves` | src/quic.rs:333-349 | The same of the inner loop alone; an error empties the queue and marks the fin sent without sending one |
| `StreamCore.PumpInConserves` | src/quic.rs:294-320 | For every sequence of library answers the inbound loop moves bytes to the channel in order, drops none and keeps the channel's bound; the stream stays readable only behind a full channel, stops being readable only with nothing left or nobody to read for, and no event is lost |
| `StreamCore.VisitBytes` | src/quic.rs:295-297 | One iteration appends exactly the bytes it takes from the library |
| `StreamCore.VisitEntry` | src/quic.rs:298-319 | When one iteration clears `readable` or gives up the channel, and when not |
| `StreamCore.VisitEvents` | src/quic.rs:298-303 | One iteration loses no event and re-arms the Data event only with nothing left to read |
| `StreamCore.PollReadConserves` | src/quic.rs:496-518 | `poll_read` returns the next bytes in order whatever the chunk sizes; with room it returns none only at the end, which is sticky and comes after every byte; it never returns more than there is room for, nor less while bytes are buffered; it is pending only with an empty channel and a live sender |
| `StreamCore.ChunkLimit` | src/quic.rs:77-78 | A read takes at most 16384 bytes, and may take just that |
| `StreamModel.SendPassKeeps` | src/quic.rs:332-357 | An outbound turn keeps the stream's invariant (messages, send side, receive side) |
| `StreamModel.RecvPassKeeps` | src/quic.rs:286-322 | An inbound iteration keeps it |
| `StreamModel.HandleKeeps` | src/quic.rs:267-273 | Applying the oldest message of the stream keeps it |
| `StreamModel.EmitKeeps` | src/quic.rs:523-573 | A write, shutdown or close notice keeps it: no Data after Fin, nothing after Closed |
| `StreamModel.ReapKeeps` | src/quic.rs:371-383 | A stream that may be dropped has no message left and is settled: the library has every byte and any owed fin, unless it failed |
| `StreamModel.PopKeeps` | src/quic.rs:507-511 | Moving a chunk from the channel to `rx_buf` keeps it |
| `StreamModel.TakeKeeps` | src/quic.rs:498-503 | Copying out of `rx_buf` keeps it |
| `StreamModel.EofKeeps` | src/quic.rs:512-515 | Reporting EOF keeps it |
| `StreamModel.DropKeeps` | src/quic.rs:478-479 | Dropping the `QuicStream` before the close notice keeps it |
| `StreamModel.CutKeeps` | src/h3_server.rs:436-439 | A reset, refusal or lost connection keeps it |
| `StreamModel.QueuedMeansOpen` | src/quic.rs:468-480 | While a message of a stream is queued its close notice was not handled, and after the fin only the close notice can follow |
| `StreamModel.FinEndsPayload` | src/quic.rs:551-573 | Once the fin was handled, the messages still queued carry no bytes |
| `Adapter.PollReadIsARun` | src/quic.rs:490-519 | One whole `poll_read`, however many chunks it passes through, is a run of bridge steps of the step system with exactly the effect of `PollRead`; the permit is set just when a slot was freed |
| `Adapter.PumpInIsARun` | src/quic.rs:286-322 | One stream's share of `pump_inbound` is a run of visits of the step system with exactly the effect of `PumpIn` |
| `QuicImpl.StreamState.Tunnel` | src/quic.rs:251-260 | A new tunnel stream: channel attached, nothing readable, pending, owed or closed |
| `QuicImpl.StreamState.MarkReadable` | src/quic.rs:262-264 | Sets `readable` and nothing else |
| `QuicImpl.StreamState.QueueOut` | src/quic.rs:267-273 | Applies one message as `Queue` says: data behind what is pending, a fin owed, the stream closed |
| `QuicImpl.StreamState.DrainOne` | src/quic.rs:333-349 | The in-place loop over `pending` computes `DrainPending` |
| `QuicImpl.StreamState.HandFinOne` | src/quic.rs:350-356 | The fin hand-over computes `HandFin` |
| `QuicImpl.StreamState.PumpOutOne` | src/quic.rs:332-357 | Both together compute `PumpOut` |
| `QuicImpl.StreamState.ReadOne` | src/quic.rs:295-319 | One iteration computes `RecvOne`; the read side is stopped just when the bridge is gone |
| `QuicImpl.StreamState.PumpInOne` | src/quic.rs:286-321 | The loop for one stream computes `PumpIn` on the entry, the channel and the receive half, leaves the send half alone, and stops the read side just when the stream is readable and its bridge has gone |
| `QuicImpl.StreamState.RetainOne` | src/quic.rs:371-383 | Keeps a stream unless it is `Reapable`; a kept stream is left exactly as it was; a dropped one has an unfinished write side reset, an unfinished read side stopped and its channel given up, and nothing else of it changes |
| `QuicImpl.PumpOutbound` | src/quic.rs:327-358 | In any order of the map every stream undergoes its own `PumpOut` and no other stream's; channels, receive halves and shutdowns stay as they were |
| `QuicImpl.PumpInbound` | src/quic.rs:280-323 | In any order of the map every stream undergoes its own `PumpIn`; what is queued for sending, the send halves and resets stay as they were |
| `QuicImpl.ReapStreams` | src/quic.rs:367-384 | In any order of the map, exactly the streams whose bridge is done and whose output is settled leave it; of a stream that is kept nothing changes (entry, pending bytes, channel, library), and of a dropped one only the channel's sender and the two shutdowns |
| `QuicImpl.ReapTouchesLittle` | src/quic.rs:371-383 | What reaping may not do, without naming how it decides: an unfinished stream is untouched; a dropped one is reset just if its fin never went out and stopped just if it was not read to the end |
| `QuicImpl.PumpsStayApart` | src/quic.rs:280-358 | The outbound pump changes only pending bytes, the fin mark and the send half; the inbound pump only the readable mark, the channel and the receive half, and it stops a read side only when nobody reads |
| `QuicImpl.QuicStream.Read` | src/quic.rs:490-519 | Computes `PollRead` on the fields and the channel in place; a permit is stored exactly when a slot was freed |
| `QuicImpl.QuicStream.Write` | src/quic.rs:523-545 | Broken pipe after shutdown or with the loop gone, else the whole buffer goes behind everything in the egress channel under this stream's id, else pending |
| `QuicImpl.QuicStream.Shutdown` | src/quic.rs:551-573 | Sends the fin once; ready without sending when already shut or the loop is gone |
| `OpenRequests.EachRequestOnceInOrder` | src/h3_client.rs:116-250 | Over every run of sessions each request received is in exactly one place, and in order of arrival: the i-th outcome is the i-th request's, at most one request is held, and the ones after it, 64 at the most, wait in the channel in order |
| `OpenRequests.StreamsFollowArrival` | src/h3_client.rs:296-360 | Outcomes are final; stream ids go up with the order of arrival within a session; every registered stream was handed to the request it is registered for |
| `OpenRequests.AnsweredIsRegistered` | src/h3_client.rs:334-360 | Over every run, each request the running session answered has its stream registered under it until that stream is reset, refused or reaped; a stream whose requester had gone is not registered; and with no session up nothing is |
| `OpenRequests.NothingBeforeSettings` | src/h3_client.rs:186-207 | No stream is opened before the SETTINGS of this very session have come in |
| `OpenRequests.NextSessionGoesOn` | src/h3_client.rs:116-125 | The end of a session, or a failure to start one, costs only the request it holds; the next session is started for the first request still in the channel |
| `OpenRequests.GivenUpOnlyForCause` | src/h3_client.rs:323-341 | A reply is dropped only if the session fails to start or ends, or the library refuses the request for good; without SETTINGS or stream credit the request stays parked; with a granted stream it leaves at once, answered if and only if the accept task still waits |
| `OpenRequests.StepKeepsInv` | src/h3_client.rs:179-250 | Every step of manager and session keeps order, ids and registration |
| `OpenRequests.ServeKeeps` | src/h3_client.rs:187-207 | Serving the parked request, whatever the library answers and whether or not the accept task still waits, keeps them |
| `OpenRequests.SessionLoop.ServeParked` | src/h3_client.rs:187-207 | The top of the loop serves or re-parks the parked request as `Attempt` says |
| `OpenRequests.SessionLoop.OpenStream` | src/h3_client.rs:296-361 | `open_stream`: back to the caller without stream credit, dropped on an error, registered and answered, or taken back when the accept task is gone |
| `HelloGrammar.AdmittedExactly` | src/clienthello.rs:35-120 | On every byte string the parser answers EchOrAcmeAlpn if and only if the first record holds a complete ClientHello and some well-formed prefix of its extensions has type 0xfe0d or an ALPN list with `acme-tls/1` in a well-formed prefix of it |
| `HelloGrammar.RefusedExactly` | src/clienthello.rs:35-120 | It answers Other if and only if the first record starts another handshake message or holds a complete ClientHello without a signal (or without an extension length), and NotTls if and only if the first byte is not 0x16 |
| `HelloGrammar.SerializedHello` | src/clienthello.rs:35-120 | On every ClientHello serialized into one record, whatever follows: EchOrAcmeAlpn if some extension is a signal, Other if none is |
| `HelloGrammar.AdmittedByNumber` | src/clienthello.rs:16-18 | On every serialized ClientHello, by the numbers alone: admitted if and only if some extension has type 0xfe0d, or type 0x0010 with a list that offers the ten bytes of `acme-tls/1` |
| `HelloGrammar.AdmittedByNames` | src/clienthello.rs:122-143 | With an ALPN extension built from a list of names: admitted if and only if there is an extension of type 0xfe0d or `acme-tls/1` is one of the names |
| `HelloGrammar.OfferExactly` | src/clienthello.rs:122-143 | A well-formed ALPN extension is a signal exactly when its list has `acme-tls/1` |
| `HelloGrammar.AlpnExact` | src/clienthello.rs:122-143 | `alpn_has_acme` is true exactly of extension data that starts with a complete list with `acme-tls/1` in some well-formed prefix |
| `HelloGrammar.BodyExact` | src/clienthello.rs:68-117 | The verdict on a hello body, from the grammar of its fields |
| `HelloGrammar.ScanExtsExact` | src/clienthello.rs:100-117 | The extension loop finds a signal exactly when some well-formed prefix of the block holds one, also before a malformed rest |
| `HelloGrammar.ScanNamesExact` | src/clienthello.rs:130-142 | The name loop finds `acme-tls/1` exactly when some well-formed prefix of the list holds it |
| `ClientHello.VerdictIsStable` | src/clienthello.rs:35-120 | Appending bytes never changes a verdict other than Incomplete, nor any verdict once the first record is complete |
| `ClientHello.SplitHelloNeverAdmitted` | src/clienthello.rs:44-67 | A hello that goes on in a second record stays Incomplete for ever |
| `ClientHelloImpl.ClassifyBytes` | src/clienthello.rs:35-120 | The cursor-based parser computes `Classify` |
| `ClientHelloImpl.ReadRecord` | src/clienthello.rs:38-54 | The record layer, field by field |
| `ClientHelloImpl.ReadHandshake` | src/clienthello.rs:55-68 | The handshake header inside the record |
| `ClientHelloImpl.SkipFront` | src/clienthello.rs:70-92 | Skips version, random, session id, cipher suites and compression, or finds one cut short |
| `ClientHelloImpl.ScanExtensions` | src/clienthello.rs:100-119 | The extension loop computes `ScanExts` |
| `ClientHelloImpl.AlpnHasAcmeIn` | src/clienthello.rs:122-143 | `alpn_has_acme` computes `AlpnHasAcme` |
| `ClientHelloImpl.ScanNameList` | src/clienthello.rs:130-143 | Its name loop computes `ScanNames` |
| `ClientHelloImpl.Reader.ReadSlice` | src/clienthello.rs:177-181 | A read takes the whole field off the unread bytes or leaves the cursor where it was |
| `ClientHelloImpl.Reader.ReadU16` | src/clienthello.rs:162-166 | Two bytes, big-endian, or nothing |
| `ClientHelloImpl.Reader.ReadU24` | src/clienthello.rs:167-171 | Three bytes, big-endian, or nothing |
| `ClientHelloImpl.Reader.Skip` | src/clienthello.rs:172-176 | Skips all of `n` bytes or none |
| `ClientHelloImpl.IsEchOrAcmeHandshake` | src/server.rs:356-387 | The peek loop computes `Gate` |
| `ClientHelloImpl.GateExactly` | src/server.rs:356-387 | The loop admits if and only if some peek shows an admitted hello and every peek before it showed some bytes but fewer than 8192, no verdict, and was not late |
| `ClientHelloImpl.HelloOnceShown` | src/server.rs:356-387 | A connection whose admitted hello fits in 8192 bytes is let through once it has been shown, however the peeks before cut it |
| `ClientHelloImpl.LateEndsLoop` | src/server.rs:376-379 | A late peek without a whole hello ends the loop, whatever later peeks would show |
| `ClientHelloImpl.GateIsSound` | src/server.rs:356-387 | Whatever the peeks show and however they are timed, a connection is admitted only if the parser admits its first 8192 bytes |
| `ClientHelloImpl.GateIgnoresSegmentation` | src/server.rs:356-387 | For every list of peeks that reaches a verdict without close, error or deadline before it, the loop answers as the parser does on the first 8192 bytes, in whatever pieces they came |
| `Sip003.OnePassAgrees` | src/sip003.rs:131-148 | On every string the four passes answer as one pass of an escape automaton does |
| `Sip003.RunTracksPasses` | src/sip003.rs:177-232 | From the middle of any piece the automaton and the passes end alike |
| `Sip003.RoundTrip` | src/sip003.rs:131-148 | Every list of options with non-empty keys, bare keys, duplicates and empty pieces included, is read back from its text as the map it stands for, for every choice of escaped characters that covers the ones needed |
| `Sip003.MapRoundTrip` | src/sip003.rs:131-148 | Every finite map with non-empty keys is read back from its text, in whatever order it was written |
| `Sip003.LastDuplicateWins` | src/sip003.rs:134-147 | The text is refused if and only if a non-empty piece has an empty key; otherwise each key has the value of its last piece and there are no other keys |
| `Sip003.SplitOfJoin` | src/sip003.rs:177-195 | Splitting undoes joining, for every list of pieces the splitter could return |
| `Sip003.JoinOfSplit` | src/sip003.rs:177-195 | Joining undoes splitting, and what splitting returns has no unescaped delimiter and no open escape before the last piece |
| `Sip003.SplitFirstAppend` | src/sip003.rs:200-217 | Where the first unescaped delimiter of a text is found when more follows it; later ones stay in the value |
| `Sip003.DanglingStep` | src/sip003.rs:220-232 | A backslash at the very end changes neither key nor value |
| `Sip003.Parse` | src/sip003.rs:131-148 | The loop over pieces computes `Parsed`, and stops at the first empty key |
| `Sip003.SplitUnescaped` | src/sip003.rs:177-195 | The character loop computes `Split` |
| `Sip003.SplitFirstUnescaped` | src/sip003.rs:200-217 | The character loop computes `SplitFirst` |
| `Sip003.Unescape` | src/sip003.rs:220-232 | The character loop computes `Unescaped` |
| `Alpn.CodecRoundTrip` | src/tls_server.rs:234-269 | Iterating the encoding of a list gives the list back if and only if every name has 1 to 255 bytes |
| `Alpn.IteratorLosesNothing` | src/tls_server.rs:245-257 | For every byte string, what the iterator yields, encoded again, and what it leaves unread make up the input |
| `Alpn.SelectAlpn` | src/tls_server.rs:193-228 | The callback's loop computes a choice that depends only on the set of names offered, the server name and the challenge store |
| `Alpn.SelectionPriority` | src/tls_server.rs:204-226 | An ACME offer ends in the challenge or in a fatal alert, never in another protocol; else `h2` beats `http/1.1`; else none; with the three names given by their bytes |
| `Alpn.ChallengeExactly` | src/tls_server.rs:207-218 | An ACME offer gets a context if and only if the client names a server, the store has that context under that name and the TLS library takes it; in every other case it gets the fatal alert |
| `Alpn.StopsForCause` | src/tls_server.rs:245-257 | The iterator stops only at the end, at an empty name or at one that does not fit |
| `Alpn.GateAndCallbackAgree` | src/clienthello.rs:122-143 | Every list of at most 65535 bytes the callback reads as ACME the gate reads as ACME; the gate alone does exactly when the iterator stopped at an empty name and the ACME name comes later |
| `Alpn.ScanOrIterate` | src/tls_server.rs:245-257 | How the two scans of the same list differ, for every list |
| `Alpn.EmptyNameHidesAcme` | src/tls_server.rs:249-251 | A concrete offer that passes the gate for its ACME name and is then refused by the callback |
| `Alpn.AlpnIter.Next` | src/tls_server.rs:245-257 | Yields the next name, or stops at the end, at an empty name and at one that does not fit |
| `Alpn.AlpnWire` | src/tls_server.rs:262-269 | Encodes a list of any names; a length byte keeps the low eight bits of the length |
| `EchKey.ReadUndoesWrite` | src/ech.rs:186-226 | Every key whose name fits its length field is read back from its file |
| `EchKey.WriteUndoesRead` | src/ech.rs:200-226 | Every accepted file is byte for byte the file of the key it holds |
| `EchKey.AcceptedFiles` | src/ech.rs:186-226 | The files accepted are exactly the encoder's image |
| `EchKey.AcceptedExactly` | src/ech.rs:202-218 | A file is accepted if and only if its length is 35 plus the big-endian length in bytes 1 and 2 and the name is the encoding of some sequence of Unicode scalar values |
| `EchKey.RefusalSaysWhy` | src/ech.rs:202-218 | Which error each refused file gets, with the lengths reported |
| `EchKey.FileLayout` | src/ech.rs:186-198 | The layout byte by byte: id, high and low byte of the name length, name, 32 bytes of key |
| `Utf8.ValidExactly` | src/ech.rs:216-218 | The name check accepts exactly the UTF-8 encodings (RFC 3629) of sequences of scalar values: no overlong form, surrogate, value past 0x10ffff, or cut or stray byte |
| `EchKey.OneFilePerKey` | src/ech.rs:186-198 | Different keys have different files |
| `EchKey.NoTruncatedFile` | src/ech.rs:202-215 | An accepted file followed by anything is refused for its length, with the lengths reported |
| `EchKey.WriteTo` | src/ech.rs:186-198 | The bytes written, or the error for a name of more than 65535 bytes |
| `EchKey.ReadFrom` | src/ech.rs:200-226 | The key, or the first error: too short, wrong length, name not UTF-8 |
| `EchKey.MarshalConfigList` | src/ech.rs:176-183 | One config with its two-byte length in front, or the error for a config of more than 65535 bytes |
| `CertCache.CacheIsCoherent` | src/h3_server.rs:339-357 | In every interleaving of two-step swaps with `ensure_config`, as long as at most 2^64 generations were issued, each successful call returns the config built from the material it loads, also when stored generations go backwards |
| `CertCache.AnswerExactly` | src/h3_server.rs:344-356 | A call returns the config of the loaded material unless the cache is stale; it fails exactly when a build is due and cannot be done, and then changes nothing |
| `CertCache.WrapGoesStale` | src/h3_server.rs:109-116 | With one generation more the counter is back at 0 and a call returns the config of replaced material: the bound is the right one |
| `CertCache.GenerationsGoBack` | src/h3_server.rs:109-116 | Two overlapping swaps can leave the older generation stored |
| `CertCache.StepKeepsInv` | src/h3_server.rs:109-116 | Every generation that is stored, cached or under way was issued with its material |
| `CertCache.CertSource.Swap` | src/h3_server.rs:109-116 | Both halves of a swap in a row |
| `CertCache.CertSource.FetchGeneration` | src/h3_server.rs:110-110 | The counter is read and moved on, wrapping round at 2^64 |
| `CertCache.ConfigSlot.EnsureConfig` | src/h3_server.rs:339-357 | Rebuilds when the stored generation differs from the cached one, keeps the cache when the build fails, and answers as the step system does |
| `WsStream.ReadsPayload` | src/ws.rs:50-89 | For every sequence of messages, errors and pauses and every sequence of destination sizes, what was read is a prefix of the payload of the Binary and Text messages; it is all of it once the reader is at its end, and the end comes only from the socket or a Close |
| `WsStream.EnoughPollsReadAll` | src/ws.rs:50-89 | On a stream that ends, enough polls with room read the whole payload and then report the end |
| `WsStream.PollConserves` | src/ws.rs:57-87 | One poll moves bytes from what remains to the caller: none lost, invented or reordered |
| `WsStream.EmptyMeansEof` | src/ws.rs:58-72 | A poll with room is ready with no bytes only at the end, and the end is final |
| `WsStream.FirstThatMatters` | src/ws.rs:57-87 | With nothing buffered the first answer of the socket that is not a ping, pong, frame or empty message decides: a pause waits, an error is reported, the end or a Close ends the stream, a message is handed out as far as there is room and the rest is kept |
| `WsStream.PollGetsOn` | src/ws.rs:67-87 | A poll neither makes an end nor loses one, and gets on while one is to come |
| `WsStream.WsByteStream.Poll` | src/ws.rs:50-89 | The loop over messages computes `PollRead` on the adapter's fields |

## Left out

- QUIC, TLS, HPKE, WebSocket framing and HTTP themselves, and the library calls that only configure them: represented by the contracts above.
- `route_packet`, version negotiation and the mapping of datagrams to connections: a packet in the model reaches some live connection.
- The HTTP/3 and TLS handshakes, `ech_ok`, header contents and the 404 answer: `handle_headers` is an accept-or-refuse choice, and a refused stream never gets a bridge.
- Clocks: timeouts are steps that may happen at any time.
- Errors of sockets: a failing receive or flush on the client is the end of the session.
- `src/acme.rs`, `src/challenge.rs`, `src/config.rs`, `src/stealth.rs`, `src/fingerprint.rs`, `src/net.rs`, `src/main.rs`, `src/tls_client.rs`, `src/client.rs`: platform code, defaults and wrappers whose claims are settled by one branch.
- The `run`, `service`, `session` and `poll_h3` loops as methods: they await several sources at once and are modelled as the steps of `EventLoop` and `OpenRequests`; the calls they make are methods.
- The moment between reserving a channel slot and filling it: one step, because only the loop fills the channel.
- `SessionLoop.log`, `History` and the material behind a `Config`: history kept for the statements, not state of the program.
- Memory bounds on the way out: `pending` is unbounded in the code.
- `QuicImpl.PumpInbound`: other tasks do not run during the call; `EventLoop` lets them run between any two iterations.
- `QuicImpl.ReapStreams`: builds the kept map at the end of the pass instead of removing entries during it.
- `QuicImpl.QuicStream.Write`: an empty buffer sends an empty chunk, as in the code; no progress is claimed for it.
- `EventLoopTheorems.NoLostWakeup`: leaves out a connection whose `h3.poll` returned an error, because the code stops draining its events there.
- The write half of `WsByteStream`, base64, file and directory access, and the contents of an ECHConfig: pass-through calls.
- `SipEnv`, `mode`, `endpoints` and `join_host_port`: each is one lookup or one branch.
