/**
 Stream-open requests on the client (`src/h3_client.rs`): accept tasks queue them, `manager` starts a
 session for the first one waiting, and the session serves them one at a time, parking the one it cannot
 open yet. Requests are known by their place in the order of arrival.
 */
module OpenRequests {
  import opened Wrappers

  /** Requests the open channel holds. */
  const OPEN_CHANNEL_CAP: nat := 64

  type Request = nat

  /** How a request left the client: with a stream, with a stream taken back because the accept task was
      gone, or with its reply dropped. */
  datatype Outcome =
    | Answered(request: Request, session: nat, sid: nat)
    | Vanished(request: Request, session: nat, sid: nat)
    | Dropped(request: Request)

  /** `send_request` on the library: a new stream id, which never was used before and is higher than
      those; no stream credit yet; or an error. */
  datatype SendError = NoCredit | Refused

  datatype RequestAnswer = Granted(skip: nat) | Denied(error: SendError)

  /** One connection. `enabled` says that the server's SETTINGS allow extended CONNECT; `streams` maps
      the registered streams to the requests they were opened for. */
  datatype Session = Session(number: nat, enabled: bool, nextSid: nat, parked: Option<Request>, streams: map<nat, Request>)

  // ---------------------------------------------------------------- serving the parked request

  datatype Served = Served(session: Session, log: seq<Outcome>)

  /** `open_stream`; `wanted` says whether the accept task still waits for the reply. */
  function Open(s: Session, req: Request, answer: RequestAnswer, wanted: bool): Served {
    match answer
    case Denied(NoCredit) => Served(s.(parked := Some(req)), [])
    case Denied(Refused) => Served(s.(parked := None), [Dropped(req)])
    case Granted(skip) =>
      var sid := s.nextSid + skip;
      if wanted then
        Served(s.(parked := None, nextSid := sid + 1, streams := s.streams[sid := req]), [Answered(req, s.number, sid)])
      else
        Served(s.(parked := None, nextSid := sid + 1, streams := s.streams - {sid}), [Vanished(req, s.number, sid)])
  }

  /** The top of the session's loop. */
  function Attempt(s: Session, answer: RequestAnswer, wanted: bool): Served {
    if s.parked.Some? && s.enabled then Open(s, s.parked.value, answer, wanted) else Served(s, [])
  }

  /** The HTTP/3 connection as far as requests go: its next answers and the ids it has given out. */
  class Http3Connection {
    var answers: seq<RequestAnswer>
    var nextSid: nat
    var enabled: bool

    constructor (answers: seq<RequestAnswer>)
      ensures this.answers == answers && nextSid == 0 && !enabled
    {
      this.answers, nextSid, enabled := answers, 0, false;
    }

    ghost function Next(): RequestAnswer
      reads this
    {
      if answers == [] then Denied(NoCredit) else answers[0]
    }

    /** `send_request`: the id of the new stream, or why there is none. */
    method SendRequest() returns (r: Result<nat, SendError>)
      modifies this`answers, this`nextSid
      ensures match old(Next())
              case Granted(skip) => r == Ok(old(nextSid) + skip) && nextSid == old(nextSid) + skip + 1
              case Denied(e) => r == Err(e) && nextSid == old(nextSid)
    {
      var answer := if answers == [] then Denied(NoCredit) else answers[0];
      answers := if answers == [] then [] else answers[1..];
      match answer {
        case Granted(skip) =>
          r := Ok(nextSid + skip);
          nextSid := nextSid + skip + 1;
        case Denied(e) =>
          r := Err(e);
      }
    }
  }

  /** The locals of `session`: the parked request, the streams and what became of the requests so far. */
  class SessionLoop {
    const number: nat
    const h3: Http3Connection
    var pending: Option<Request>
    var streams: map<nat, Request>
    var log: seq<Outcome>

    constructor (number: nat, h3: Http3Connection, first: Request)
      ensures this.number == number && this.h3 == h3 && log == []
      ensures View() == Session(number, h3.enabled, h3.nextSid, Some(first), map[])
    {
      this.number, this.h3 := number, h3;
      pending, streams, log := Some(first), map[], [];
    }

    ghost function View(): Session
      reads this, h3
    {
      Session(number, h3.enabled, h3.nextSid, pending, streams)
    }

    /** `open_stream`: hands the request back when it has to be retried. */
    method OpenStream(req: Request, wanted: bool) returns (back: Option<Request>)
      modifies this`streams, this`log, h3`answers, h3`nextSid
      ensures var s := Open(old(View()), req, old(h3.Next()), wanted);
              log == old(log) + s.log && View().(parked := back) == s.session
    {
      var r := h3.SendRequest();
      match r {
        case Err(NoCredit) =>
          return Some(req);
        case Err(Refused) =>
          log := log + [Dropped(req)];
          return None;
        case Ok(sid) =>
          streams := streams[sid := req];
          if !wanted {
            streams := streams - {sid};
            log := log + [Vanished(req, number, sid)];
            return None;
          }
          log := log + [Answered(req, number, sid)];
          return None;
      }
    }

    /** The top of the loop in `session`: serve the parked request, or leave it parked. */
    method ServeParked(wanted: bool)
      modifies this`pending, this`streams, this`log, h3`answers, h3`nextSid
      ensures var s := Attempt(old(View()), old(h3.Next()), wanted);
              log == old(log) + s.log && View() == s.session
    {
      if pending.Some? {
        var req := pending.value;
        pending := None;
        if h3.enabled {
          pending := OpenStream(req, wanted);
        } else {
          pending := Some(req);
        }
      }
    }
  }

  // ---------------------------------------------------------------- manager and sessions, step by step

  /** Where the manager is: waiting for a request, connecting for one, or at a point of the session loop. */
  datatype Pc = Idle | Starting(first: Request) | Top | Selecting | Servicing

  datatype State = State(arrived: nat, channel: seq<Request>, pc: Pc, session: Session, log: seq<Outcome>)

  /** Everything that may happen, as far as requests go. `Other` is any branch of the select but the open
      channel's; `Forget` a stream leaving the map by reset, refusal or reaping. */
  datatype Action =
    | Send
    | Start
    | StartFails
    | Established
    | Serve(answer: RequestAnswer, wanted: bool)
    | Receive
    | Other
    | Settings
    | Forget(sid: nat)
    | Continue
    | End

  const NO_SESSION := Session(0, false, 0, None, map[])

  const INITIAL := State(0, [], Idle, NO_SESSION, [])

  predicate Enabled(s: State, a: Action) {
    match a
    case Send => |s.channel| < OPEN_CHANNEL_CAP
    case Start => s.pc.Idle? && s.channel != []
    case StartFails => s.pc.Starting?
    case Established => s.pc.Starting?
    case Serve(_, _) => s.pc.Top?
    case Receive => s.pc.Selecting? && s.session.parked.None? && s.channel != []
    case Other => s.pc.Selecting?
    case Settings => s.pc.Servicing?
    case Forget(sid) => s.pc.Servicing? && sid in s.session.streams
    case Continue => s.pc.Servicing?
    case End => s.pc.Selecting? || s.pc.Servicing?
  }

  function Apply(s: State, a: Action): State
    requires Enabled(s, a)
  {
    match a
    case Send => s.(arrived := s.arrived + 1, channel := s.channel + [s.arrived])
    case Start => s.(channel := s.channel[1..], pc := Starting(s.channel[0]))
    case StartFails => s.(pc := Idle, log := s.log + [Dropped(s.pc.first)])
    case Established =>
      s.(pc := Top, session := Session(s.session.number + 1, false, 0, Some(s.pc.first), map[]))
    case Serve(answer, wanted) =>
      var r := Attempt(s.session, answer, wanted);
      s.(pc := Selecting, session := r.session, log := s.log + r.log)
    case Receive =>
      s.(channel := s.channel[1..], pc := Servicing, session := s.session.(parked := Some(s.channel[0])))
    case Other => s.(pc := Servicing)
    case Settings => s.(session := s.session.(enabled := true))
    case Forget(sid) => s.(session := s.session.(streams := s.session.streams - {sid}))
    case Continue => s.(pc := Top)
    case End =>
      s.(pc := Idle, session := s.session.(parked := None, streams := map[]),
         log := s.log + if s.session.parked.Some? then [Dropped(s.session.parked.value)] else [])
  }

  predicate Possible(s: State, run: seq<Action>)
    decreases |run|
  {
    run == [] || (Enabled(s, run[0]) && Possible(Apply(s, run[0]), run[1..]))
  }

  function After(s: State, run: seq<Action>): State
    requires Possible(s, run)
    decreases |run|
  {
    if run == [] then s else After(Apply(s, run[0]), run[1..])
  }

  // ---------------------------------------------------------------- what every run keeps

  /** The requests 0, 1, ..., n - 1. */
  function FirstRequests(n: nat): seq<Request> {
    seq(n, i => i)
  }

  function Requests(log: seq<Outcome>): seq<Request> {
    seq(|log|, i requires 0 <= i < |log| => log[i].request)
  }

  /** The one request the manager holds, if any: the one it is connecting for or the parked one. */
  function Held(s: State): seq<Request> {
    match s.pc
    case Idle => []
    case Starting(first) => [first]
    case _ => if s.session.parked.Some? then [s.session.parked.value] else []
  }

  /** Every request is in exactly one place, and the places are in order of arrival. */
  ghost predicate InOrder(s: State) {
    Requests(s.log) + Held(s) + s.channel == FirstRequests(s.arrived)
  }

  predicate HasStream(o: Outcome) {
    !o.Dropped?
  }

  /** Within a session stream ids go up in the order of the requests, and sessions follow one another. */
  ghost predicate Increasing(log: seq<Outcome>) {
    forall i, j :: 0 <= i < j < |log| && HasStream(log[i]) && HasStream(log[j]) ==>
      log[i].session < log[j].session || (log[i].session == log[j].session && log[i].sid < log[j].sid)
  }

  /** The log so far is of this session's and earlier ids. */
  ghost predicate Past(log: seq<Outcome>, s: Session) {
    forall o :: o in log && HasStream(o) ==> o.session < s.number || (o.session == s.number && o.sid < s.nextSid)
  }

  /** Every registered stream was given, by this session, to the request it is registered for. */
  ghost predicate Registered(s: Session, log: seq<Outcome>) {
    forall sid :: sid in s.streams ==> sid < s.nextSid && Answered(s.streams[sid], s.number, sid) in log
  }

  ghost predicate Inv(s: State) {
    InOrder(s) && Increasing(s.log) && Past(s.log, s.session) && Registered(s.session, s.log) &&
    (s.pc.Idle? || s.pc.Starting? ==> s.session.parked.None?) && |s.channel| <= OPEN_CHANNEL_CAP
  }

  lemma RequestsSnoc(log: seq<Outcome>, o: Outcome)
    ensures Requests(log + [o]) == Requests(log) + [o.request]
  {
  }

  lemma Move(a: seq<Request>, b: Request, c: seq<Request>)
    ensures a + [b] + c == (a + [b]) + [] + c == a + [] + ([b] + c)
  {
    assert (a + [b]) + [] == a + [b] && a + [] == a;
    assert a + [b] + c == a + ([b] + c);
  }

  /** What one outcome does to the log's invariants. */
  lemma LogKeeps(log: seq<Outcome>, o: Outcome, s: Session, s': Session)
    requires Increasing(log) && Past(log, s) && s'.number == s.number && s'.nextSid >= s.nextSid
    requires HasStream(o) ==> o.session == s.number && s.nextSid <= o.sid < s'.nextSid
    ensures Increasing(log + [o]) && Past(log + [o], s')
  {
    forall i, j | 0 <= i < j < |log + [o]| && HasStream((log + [o])[i]) && HasStream((log + [o])[j])
      ensures var p, q := (log + [o])[i], (log + [o])[j];
              p.session < q.session || (p.session == q.session && p.sid < q.sid)
    {
      assert (log + [o])[i] in log;
    }
  }

  lemma ServeKeeps(s: State, answer: RequestAnswer, wanted: bool)
    requires Inv(s) && s.pc.Top?
    ensures Inv(Apply(s, Serve(answer, wanted)))
  {
    var r := Attempt(s.session, answer, wanted);
    if r.log == [] {
      assert s.log + r.log == s.log;
    } else {
      var o := r.log[0];
      assert r.log == [o];
      LogKeeps(s.log, o, s.session, r.session);
      RequestsSnoc(s.log, o);
      Move(Requests(s.log), o.request, s.channel);
      assert o in s.log + [o];
    }
  }

  /** A request moves from the channel to the manager. */
  lemma TakeKeeps(s: State, s': State)
    requires InOrder(s) && s.channel != [] && Held(s) == []
    requires s'.log == s.log && s'.channel == s.channel[1..] && Held(s') == [s.channel[0]] && s'.arrived == s.arrived
    ensures InOrder(s')
  {
    assert [s.channel[0]] + s.channel[1..] == s.channel;
    Move(Requests(s.log), s.channel[0], s.channel[1..]);
  }

  /** The request the manager holds, if any, is given up. */
  lemma GiveUpKeeps(s: State, s': State)
    requires InOrder(s) && Increasing(s.log) && Past(s.log, s.session)
    requires s'.log == s.log + (if Held(s) == [] then [] else [Dropped(Held(s)[0])])
    requires s'.channel == s.channel && Held(s') == [] && s'.arrived == s.arrived
    requires s'.session.number == s.session.number && s'.session.nextSid == s.session.nextSid
    ensures InOrder(s') && Increasing(s'.log) && Past(s'.log, s'.session)
  {
    if Held(s) == [] {
      assert s'.log == s.log;
    } else {
      var o := Dropped(Held(s)[0]);
      LogKeeps(s.log, o, s.session, s.session);
      RequestsSnoc(s.log, o);
      Move(Requests(s.log), o.request, s.channel);
    }
  }

  lemma SendKeeps(s: State)
    requires InOrder(s)
    ensures InOrder(s.(arrived := s.arrived + 1, channel := s.channel + [s.arrived]))
  {
    assert FirstRequests(s.arrived + 1) == FirstRequests(s.arrived) + [s.arrived];
    assert Requests(s.log) + Held(s) + (s.channel + [s.arrived]) == Requests(s.log) + Held(s) + s.channel + [s.arrived];
  }

  lemma StepKeepsInv(s: State, a: Action)
    requires Inv(s) && Enabled(s, a)
    ensures Inv(Apply(s, a)) && s.log <= Apply(s, a).log
  {
    match a
    case Send => SendKeeps(s);
    case Start => TakeKeeps(s, Apply(s, a));
    case Receive => TakeKeeps(s, Apply(s, a));
    case StartFails => GiveUpKeeps(s, Apply(s, a));
    case End => GiveUpKeeps(s, Apply(s, a));
    case Serve(answer, wanted) => ServeKeeps(s, answer, wanted);
    case _ =>
  }

  lemma {:induction false} RunKeepsInv(s: State, run: seq<Action>)
    requires Inv(s) && Possible(s, run)
    ensures Inv(After(s, run)) && s.log <= After(s, run).log
    decreases |run|
  {
    if run != [] {
      StepKeepsInv(s, run[0]);
      RunKeepsInv(Apply(s, run[0]), run[1..]);
    }
  }

  // ---------------------------------------------------------------- what a reader may rely on

  /** Over every run of sessions each request is in exactly one place, and none overtakes another: the
      i-th outcome is the i-th request's, the next request is the one held (at most one is), and the ones
      after it wait in the channel in order. */
  lemma EachRequestOnceInOrder(run: seq<Action>)
    requires Possible(INITIAL, run)
    ensures var s := After(INITIAL, run);
            var n := |s.log|;
            && (forall i :: 0 <= i < n ==> s.log[i].request == i)
            && (Held(s) == [] || Held(s) == [n])
            && (forall i :: 0 <= i < |s.channel| ==> s.channel[i] == n + |Held(s)| + i)
            && n + |Held(s)| + |s.channel| == s.arrived
            && |s.channel| <= 64 && (Enabled(s, Send) <==> |s.channel| != 64)
  {
    RunKeepsInv(INITIAL, run);
    var s := After(INITIAL, run);
    Pieces(Requests(s.log), Held(s), s.channel, s.arrived);
    forall i | 0 <= i < |s.log| ensures s.log[i].request == i {
      assert Requests(s.log)[i] == s.log[i].request;
    }
    assert Held(s) != [] ==> Held(s) == [Held(s)[0]];
  }

  /** Three pieces that make up the first requests. */
  lemma Pieces(a: seq<Request>, b: seq<Request>, c: seq<Request>, n: nat)
    requires a + b + c == FirstRequests(n)
    ensures |a| + |b| + |c| == n
    ensures forall i :: 0 <= i < |a| ==> a[i] == i
    ensures forall i :: 0 <= i < |b| ==> b[i] == |a| + i
    ensures forall i :: 0 <= i < |c| ==> c[i] == |a| + |b| + i
  {
    assert |a + b + c| == |FirstRequests(n)| == n;
    forall i | 0 <= i < |a| ensures a[i] == i {
      assert (a + b + c)[i] == FirstRequests(n)[i];
    }
    forall i | 0 <= i < |b| ensures b[i] == |a| + i {
      assert (a + b + c)[|a| + i] == FirstRequests(n)[|a| + i];
    }
    forall i | 0 <= i < |c| ensures c[i] == |a| + |b| + i {
      assert (a + b + c)[|a| + |b| + i] == FirstRequests(n)[|a| + |b| + i];
    }
  }

  /** An outcome, once there, is final; the streams of a session were opened in the order in which their
      requests arrived; and a registered stream was handed to the request it is registered for. */
  lemma StreamsFollowArrival(run: seq<Action>, more: seq<Action>)
    requires Possible(INITIAL, run) && Possible(After(INITIAL, run), more)
    ensures var s := After(INITIAL, run);
            && s.log <= After(s, more).log
            && (forall i, j :: 0 <= i < j < |s.log| && HasStream(s.log[i]) && HasStream(s.log[j]) ==>
                  s.log[i].session < s.log[j].session ||
                  (s.log[i].session == s.log[j].session && s.log[i].sid < s.log[j].sid))
            && (forall sid :: sid in s.session.streams ==>
                  Answered(s.session.streams[sid], s.session.number, sid) in s.log)
  {
    RunKeepsInv(INITIAL, run);
    RunKeepsInv(After(INITIAL, run), more);
  }

  /** The end of a session, or a failure to start one, costs the request it holds and no other: the next
      session is started for the first request still in the channel. */
  lemma NextSessionGoesOn(s: State, a: Action)
    requires Inv(s) && Enabled(s, a) && (a.End? || a.StartFails?)
    ensures var t := Apply(s, a);
            && t.log == s.log + (if Held(s) == [] then [] else [Dropped(Held(s)[0])])
            && t.channel == s.channel
            && (s.channel != [] ==>
                  Possible(t, [Start, Established]) &&
                  var u := After(t, [Start, Established]);
                  Held(u) == [s.channel[0]] && u.session.number == t.session.number + 1 && u.session.streams == map[])
  {
    var t := Apply(s, a);
    if s.channel != [] {
      var u := Apply(t, Start);
      assert [Start, Established][1..] == [Established] && [Established][1..] == [];
      assert Possible(Apply(u, Established), []);
      assert After(Apply(u, Established), []) == Apply(u, Established);
      assert After(u, [Established]) == Apply(u, Established);
    }
  }

  /** A reply is dropped only for a cause: the session failed to start, it ended, or the library refused the
      request for good. A request that lacks SETTINGS or stream credit stays parked, and one that gets a
      stream leaves at once. */
  lemma GivenUpOnlyForCause(s: State, a: Action)
    requires Inv(s) && Enabled(s, a)
    ensures var t := Apply(s, a);
            && (Dropped(|s.log|) in t.log && Dropped(|s.log|) !in s.log ==>
                  a.StartFails? || a.End? || (a.Serve? && a.answer == Denied(Refused)))
            && (a.Serve? && Held(s) != [] ==>
                  (Held(t) == Held(s) <==> !s.session.enabled || a.answer == Denied(NoCredit)) &&
                  (s.session.enabled && a.answer.Granted? ==>
                     (|t.log| == |s.log| + 1 && HasStream(t.log[|s.log|]) && (t.log[|s.log|].Answered? <==> a.wanted))))
  {
    if a.Serve? && Held(s) != [] {
      HeldIsNext(s);
    }
  }

  /** The held request is the next one to have an outcome. */
  lemma HeldIsNext(s: State)
    requires InOrder(s) && Held(s) != []
    ensures Held(s) == [|s.log|]
  {
    Pieces(Requests(s.log), Held(s), s.channel, s.arrived);
    assert Held(s) == [Held(s)[0]];
  }

  // ---------------------------------------------------------------- answered means registered

  /** A session is up. */
  predicate Running(s: State) {
    s.pc.Top? || s.pc.Selecting? || s.pc.Servicing?
  }

  /** The streams a run forgets, by reset, refusal or reaping, after it last starts a session; `before` are
      the ones forgotten so far. */
  function Forgotten(run: seq<Action>, before: set<nat>): set<nat>
    decreases |run|
  {
    if run == [] then before else Forgotten(run[1..], ForgottenBy(run[0], before))
  }

  function ForgottenBy(a: Action, before: set<nat>): set<nat> {
    match a
    case Established => {}
    case Forget(sid) => before + {sid}
    case _ => before
  }

  /** The session's streams are exactly the ones it answered with and has not forgotten, each under the
      request it was opened for; with no session up there are none. */
  ghost predicate Serves(s: State, forgotten: set<nat>) {
    if !Running(s) then s.session.streams == map[]
    else
      (forall o :: o in s.log && HasStream(o) && o.session == s.session.number ==>
         (o.sid in s.session.streams <==> o.Answered? && o.sid !in forgotten) &&
         (o.sid in s.session.streams ==> s.session.streams[o.sid] == o.request)) &&
      forall sid :: sid in forgotten ==> sid < s.session.nextSid
  }

  lemma ServesOpen(s: State, answer: RequestAnswer, wanted: bool, forgotten: set<nat>)
    requires Inv(s) && Serves(s, forgotten) && s.pc.Top?
    ensures Serves(Apply(s, Serve(answer, wanted)), forgotten)
  {
    var r := Attempt(s.session, answer, wanted);
    var t := Apply(s, Serve(answer, wanted));
    forall o | o in t.log && HasStream(o) && o.session == t.session.number
      ensures (o.sid in t.session.streams <==> o.Answered? && o.sid !in forgotten) &&
              (o.sid in t.session.streams ==> t.session.streams[o.sid] == o.request)
    {
      if o in s.log {
        assert o.sid < s.session.nextSid;
      } else {
        assert o in r.log && o == r.log[0];
      }
    }
  }

  lemma ServesStep(s: State, a: Action, forgotten: set<nat>)
    requires Inv(s) && Serves(s, forgotten) && Enabled(s, a)
    ensures Serves(Apply(s, a), ForgottenBy(a, forgotten))
  {
    if a.Serve? {
      ServesOpen(s, a.answer, a.wanted, forgotten);
    }
  }

  lemma {:induction false} ServesRun(s: State, run: seq<Action>, forgotten: set<nat>)
    requires Inv(s) && Serves(s, forgotten) && Possible(s, run)
    ensures Serves(After(s, run), Forgotten(run, forgotten))
    decreases |run|
  {
    if run != [] {
      ServesStep(s, run[0], forgotten);
      StepKeepsInv(s, run[0]);
      ServesRun(Apply(s, run[0]), run[1..], ForgottenBy(run[0], forgotten));
    }
  }

  /** Over every run: each request the running session answered has its stream registered under it, until
      that stream is reset, refused or reaped; a stream whose requester had gone is not registered; and when
      no session is up, nothing is. */
  lemma AnsweredIsRegistered(run: seq<Action>)
    requires Possible(INITIAL, run)
    ensures var s := After(INITIAL, run);
            && (Running(s) ==> forall r, sid :: Answered(r, s.session.number, sid) in s.log ==>
                  (sid in Forgotten(run, {}) <==> sid !in s.session.streams) &&
                  (sid in s.session.streams ==> s.session.streams[sid] == r))
            && (Running(s) ==> forall r, sid :: Vanished(r, s.session.number, sid) in s.log ==> sid !in s.session.streams)
            && (!Running(s) ==> s.session.streams == map[])
  {
    RunKeepsInv(INITIAL, run);
    ServesRun(INITIAL, run, {});
  }

  // ---------------------------------------------------------------- nothing before SETTINGS

  /** The server's SETTINGS have come in since a session was last started; `before` says whether they had. */
  predicate SettingsIn(run: seq<Action>, before: bool)
    decreases |run|
  {
    if run == [] then before else SettingsIn(run[1..], SettingsBy(run[0], before))
  }

  predicate SettingsBy(a: Action, before: bool) {
    a.Settings? || (before && !a.Established?)
  }

  lemma {:induction false} EnabledAfterSettings(s: State, run: seq<Action>)
    requires Possible(s, run)
    ensures After(s, run).session.enabled <==> SettingsIn(run, s.session.enabled)
    decreases |run|
  {
    if run != [] {
      EnabledAfterSettings(Apply(s, run[0]), run[1..]);
    }
  }

  /** No stream is opened before the server's SETTINGS of this session: until then a step answers nothing. */
  lemma NothingBeforeSettings(run: seq<Action>, answer: RequestAnswer, wanted: bool)
    requires Possible(INITIAL, run) && After(INITIAL, run).pc.Top? && !SettingsIn(run, false)
    ensures var s := After(INITIAL, run);
            Apply(s, Serve(answer, wanted)) == s.(pc := Selecting)
  {
    EnabledAfterSettings(INITIAL, run);
    var s := After(INITIAL, run);
    assert s.log + [] == s.log;
  }
}
