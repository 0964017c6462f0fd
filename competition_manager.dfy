/** The older competition state manager of the competition service
    (competition_manager.ts): solo sessions keyed by username, started, made ready and
    completed by handler calls; only solo sessions are implemented.

    The clock, fresh ids and the scramble draws are parameters; the messages sent over
    the sockets are appended to the log `sent`. */
module CompetitionManager {
  import opened Common
  import opened Scrambler

  datatype SessionType = Solo | Multi

  datatype CompState = Scrambling | Solving | Complete

  /** The result object a client submits; only its time is read or changed. */
  datatype SolveReport = SolveReport(time: int)

  /** The `results` field: created as an empty list, and replaced by the single
      submitted result object when a solo solve completes. */
  datatype StoredResults = ResultList(items: seq<SolveReport>) | SingleResult(report: SolveReport)

  datatype CompetitionSession = CompetitionSession(
    id: string, kind: SessionType, state: CompState, cubeType: string,
    participants: seq<string>, scramble: string, results: StoredResults, startTime: Option<int>)

  datatype Socket = Socket(id: nat)

  /** A SESSION_UPDATE message carrying the session as it was when sent. */
  datatype Sent = Sent(to: string, session: CompetitionSession)

  datatype Comp = Comp(sessions: map<string, CompetitionSession>, connections: map<string, Socket>, sent: seq<Sent>)

  /** `!session.start_time` */
  predicate NoStartTime(s: CompetitionSession) {
    s.startTime.None? || s.startTime.value == 0
  }

  // ---------------------------------------------------------------------------
  // The handlers as functions of the state

  /** addConnection */
  function Connected(st: Comp, username: string, ws: Socket): Comp {
    st.(connections := st.connections[username := ws], sessions := st.sessions - {username})
  }

  /** handleDisconnect */
  function Disconnected(st: Comp, username: string): Comp {
    st.(sessions := st.sessions - {username}, connections := st.connections - {username})
  }

  /** notifyUser: sends only when the user has a socket. */
  function Notified(st: Comp, username: string, session: CompetitionSession): Comp {
    if username in st.connections then st.(sent := st.sent + [Sent(username, session)]) else st
  }

  /** The session handleSoloStart creates. */
  function SoloSession(username: string, cubeType: string, id: string, draws: seq<Draw>): CompetitionSession
    requires ValidDraws(draws)
  {
    CompetitionSession(id, Solo, Scrambling, cubeType, [username], GenerateScramble(draws), ResultList([]), None)
  }

  /** handleSoloStart */
  function SoloStarted(st: Comp, username: string, cubeType: string, id: string, draws: seq<Draw>): Comp
    requires ValidDraws(draws)
  {
    var session := SoloSession(username, cubeType, id, draws);
    Notified(st.(sessions := st.sessions[username := session]), username, session)
  }

  /** handleReady */
  function MadeReady(st: Comp, username: string, now: int): Comp {
    if username !in st.sessions || st.sessions[username].state != Scrambling then st
    else if st.sessions[username].kind == Solo then
      var session := st.sessions[username].(state := Solving, startTime := Some(now));
      Notified(st.(sessions := st.sessions[username := session]), username, session)
    else st
  }

  /** The submitted result after validation: the server's measurement replaces the
      client's time when they differ by more than 2000 ms. */
  function Validated(session: CompetitionSession, report: SolveReport, now: int): SolveReport
    requires !NoStartTime(session)
  {
    SolveReport(ReconciledTime(report.time, now - session.startTime.value))
  }

  /** handleSolveComplete: the new state. */
  function SolveCompleted(st: Comp, username: string, report: SolveReport, now: int): Comp {
    if username !in st.sessions || NoStartTime(st.sessions[username]) then st
    else if st.sessions[username].kind == Solo then
      var result := Validated(st.sessions[username], report, now);
      var session := st.sessions[username].(results := SingleResult(result), state := Complete);
      Notified(st.(sessions := st.sessions[username := session]), username, session)
    else st
  }

  /** handleSolveComplete: the caller's result object afterwards (its time is
      overwritten in place whenever a started session exists). */
  function ReportAfter(st: Comp, username: string, report: SolveReport, now: int): SolveReport {
    if username !in st.sessions || NoStartTime(st.sessions[username]) then report
    else Validated(st.sessions[username], report, now)
  }

  // ---------------------------------------------------------------------------
  // Properties

  /** addConnection stores the socket and deletes any earlier session, and nothing else. */
  lemma ConnectSpec(st: Comp, username: string, ws: Socket)
    ensures var r := Connected(st, username, ws);
      r.connections[username] == ws && username !in r.sessions && r.sent == st.sent &&
      (forall u :: u != username ==> (u in r.sessions <==> u in st.sessions) && (u in r.connections <==> u in st.connections)) &&
      (forall u :: u != username && u in r.sessions ==> r.sessions[u] == st.sessions[u])
  {
  }

  /** handleDisconnect removes the session and the socket, and nothing else. */
  lemma DisconnectSpec(st: Comp, username: string)
    ensures var r := Disconnected(st, username);
      username !in r.sessions && username !in r.connections && r.sent == st.sent &&
      (forall u :: u != username ==> (u in r.sessions <==> u in st.sessions) && (u in r.connections <==> u in st.connections)) &&
      (forall u :: u != username && u in r.sessions ==> r.sessions[u] == st.sessions[u])
  {
  }

  /** notifyUser never changes a session or a socket; it sends exactly when the user is
      connected. */
  lemma NotifyChangesNoState(st: Comp, username: string, session: CompetitionSession)
    ensures var r := Notified(st, username, session);
      r.sessions == st.sessions && r.connections == st.connections &&
      (username in st.connections <==> r.sent == st.sent + [Sent(username, session)]) &&
      (username !in st.connections <==> r.sent == st.sent)
  {
    var r := Notified(st, username, session);
    if username in st.connections {
      assert |r.sent| == |st.sent| + 1;
    }
  }

  /** handleSoloStart replaces any session of the user by a solo session in SCRAMBLING
      with the user as only participant, no results and no start time, whether or not
      the user is connected. */
  lemma SoloStartSpec(st: Comp, username: string, cubeType: string, id: string, draws: seq<Draw>)
    requires ValidDraws(draws)
    ensures var r := SoloStarted(st, username, cubeType, id, draws);
      r.sessions == st.sessions[username := CompetitionSession(id, Solo, Scrambling, cubeType, [username],
                                                               GenerateScramble(draws), ResultList([]), None)] &&
      r.connections == st.connections
  {
  }

  /** handleReady does nothing unless the user's session is in SCRAMBLING; a solo session
      then moves to SOLVING with the start time now, and any other kind is left as it is. */
  lemma ReadySpec(st: Comp, username: string, now: int)
    ensures var r := MadeReady(st, username, now);
      r.connections == st.connections &&
      (username !in st.sessions || st.sessions[username].state != Scrambling ==> r == st) &&
      (username in st.sessions && st.sessions[username].state == Scrambling && st.sessions[username].kind != Solo ==> r == st) &&
      (username in st.sessions && st.sessions[username].state == Scrambling && st.sessions[username].kind == Solo ==>
        r.sessions == st.sessions[username := st.sessions[username].(state := Solving, startTime := Some(now))])
  {
  }

  /** handleSolveComplete does nothing without a session or a (non-zero) start time. */
  lemma CompleteNeedsStart(st: Comp, username: string, report: SolveReport, now: int)
    requires username !in st.sessions || NoStartTime(st.sessions[username])
    ensures SolveCompleted(st, username, report, now) == st
    ensures ReportAfter(st, username, report, now) == report
  {
  }

  /** The submitted time is replaced by the server's measurement exactly when the two
      differ by more than 2000 ms. */
  lemma TimeReplacedIffSkewed(st: Comp, username: string, report: SolveReport, now: int)
    requires username in st.sessions && !NoStartTime(st.sessions[username])
    ensures var serverTime := now - st.sessions[username].startTime.value;
      var after := ReportAfter(st, username, report, now);
      (Abs(serverTime - report.time) > 2000 ==> after.time == serverTime) &&
      (Abs(serverTime - report.time) <= 2000 ==> after == report)
  {
  }

  /** A solo completion stores the validated result in `results` and marks the session
      COMPLETE; the state before is not checked. Other kinds of session are unchanged. */
  lemma SoloCompletionSpec(st: Comp, username: string, report: SolveReport, now: int)
    requires username in st.sessions && !NoStartTime(st.sessions[username])
    ensures var r := SolveCompleted(st, username, report, now);
      var s := st.sessions[username];
      r.connections == st.connections &&
      (s.kind == Solo ==> r.sessions == st.sessions[username := s.(results := SingleResult(ReportAfter(st, username, report, now)), state := Complete)]) &&
      (s.kind != Solo ==> r == st)
  {
  }

  /** A COMPLETE session cannot be made ready again. */
  lemma NoReadyAfterComplete(st: Comp, username: string, now: int)
    requires username in st.sessions && st.sessions[username].state == Complete
    ensures MadeReady(st, username, now) == st
  {
  }

  // ---------------------------------------------------------------------------
  // The handlers as written. competition_manager.ts neither imports nor declares
  // SessionType or SessionState, which its handlers use as values. handleSoloStart
  // therefore throws when it builds the session, before storing or sending anything.
  // handleReady and handleSolveComplete return before reaching those names when there
  // is no session, and throw without storing anything when there is one. The handlers
  // above take the names at their evident values; these take them as written.

  datatype CallKind = ConnectCall(ws: Socket) | DisconnectCall | SoloStartCall | ReadyCall | CompleteCall

  datatype Call = Call(username: string, kind: CallKind)

  /** One handler call as written: only the connection handlers change anything. */
  function StepAsWritten(st: Comp, c: Call): Comp {
    match c.kind
    case ConnectCall(ws) => Connected(st, c.username, ws)
    case DisconnectCall => Disconnected(st, c.username)
    case SoloStartCall => st
    case ReadyCall => st
    case CompleteCall => st
  }

  function RunAsWritten(st: Comp, calls: seq<Call>): Comp
    decreases |calls|
  {
    if calls == [] then st else RunAsWritten(StepAsWritten(st, calls[0]), calls[1..])
  }

  /** As written, no call ever creates a session or sends a message: sessions only go,
      and from the manager's empty start no session ever exists. */
  lemma {:induction false} AsWrittenNothingSent(st: Comp, calls: seq<Call>)
    ensures var r := RunAsWritten(st, calls);
      r.sessions.Keys <= st.sessions.Keys && r.sent == st.sent &&
      (forall u :: u in r.sessions ==> r.sessions[u] == st.sessions[u])
    decreases |calls|
  {
    if calls != [] {
      var st' := StepAsWritten(st, calls[0]);
      AsWrittenNothingSent(st', calls[1..]);
    }
  }

  /** The input that shows it: a connected user starts a solo session and reports ready.
      As written, neither call stores a session or sends anything. */
  lemma AsWrittenStartThenReady(st: Comp, username: string, ws: Socket)
    ensures var r := RunAsWritten(st, [Call(username, ConnectCall(ws)), Call(username, SoloStartCall), Call(username, ReadyCall)]);
      username !in r.sessions && r.sent == st.sent
  {
    var calls := [Call(username, ConnectCall(ws)), Call(username, SoloStartCall), Call(username, ReadyCall)];
    var st1 := StepAsWritten(st, calls[0]);
    assert username !in st1.sessions;
    AsWrittenNothingSent(st1, calls[1..]);
  }

  /** With the names at their evident values, the same calls leave the user solving, with
      the start time now, and send two SESSION_UPDATE messages. */
  lemma IntendedStartThenReady(st: Comp, username: string, ws: Socket, cubeType: string, id: string,
                               draws: seq<Draw>, now: int)
    requires ValidDraws(draws)
    ensures var r := MadeReady(SoloStarted(Connected(st, username, ws), username, cubeType, id, draws), username, now);
      username in r.sessions && r.sessions[username].state == Solving &&
      r.sessions[username].startTime == Some(now) && |r.sent| == |st.sent| + 2
  {
  }

  /** Each session is a solo session of its key, and its fields agree with its state. */
  ghost predicate Invariant(st: Comp) {
    forall u :: u in st.sessions ==>
      var s := st.sessions[u];
      s.kind == Solo && s.participants == [u] &&
      (s.state == Scrambling ==> s.startTime.None? && s.results == ResultList([])) &&
      (s.state == Solving ==> s.startTime.Some? && s.results == ResultList([])) &&
      (s.state == Complete ==> !NoStartTime(s) && s.results.SingleResult?)
  }

  /** Each handler keeps the invariant. */
  lemma InvariantConnect(st: Comp, username: string, ws: Socket)
    requires Invariant(st)
    ensures Invariant(Connected(st, username, ws))
  {
  }

  lemma InvariantDisconnect(st: Comp, username: string)
    requires Invariant(st)
    ensures Invariant(Disconnected(st, username))
  {
  }

  lemma InvariantSoloStart(st: Comp, username: string, cubeType: string, id: string, draws: seq<Draw>)
    requires Invariant(st) && ValidDraws(draws)
    ensures Invariant(SoloStarted(st, username, cubeType, id, draws))
  {
  }

  lemma InvariantReady(st: Comp, username: string, now: int)
    requires Invariant(st)
    ensures Invariant(MadeReady(st, username, now))
  {
  }

  lemma InvariantComplete(st: Comp, username: string, report: SolveReport, now: int)
    requires Invariant(st)
    ensures Invariant(SolveCompleted(st, username, report, now))
  {
  }

  // ---------------------------------------------------------------------------
  // The manager object

  class CompetitionStateManager {
    var activeSessions: map<string, CompetitionSession>
    var connections: map<string, Socket>
    var sent: seq<Sent>

    function State(): Comp
      reads this
    {
      Comp(activeSessions, connections, sent)
    }

    constructor ()
      ensures State() == Comp(map[], map[], [])
    {
      activeSessions, connections, sent := map[], map[], [];
    }

    method AddConnection(username: string, ws: Socket)
      modifies this
      ensures State() == Connected(old(State()), username, ws)
    {
      connections := connections[username := ws];
      activeSessions := activeSessions - {username};
    }

    method HandleDisconnect(username: string)
      modifies this
      ensures State() == Disconnected(old(State()), username)
    {
      activeSessions := activeSessions - {username};
      connections := connections - {username};
    }

    method HandleSoloStart(username: string, cubeType: string, id: string, draws: seq<Draw>)
      requires ValidDraws(draws)
      modifies this
      ensures State() == SoloStarted(old(State()), username, cubeType, id, draws)
    {
      var session := CompetitionSession(id, Solo, Scrambling, cubeType, [username], GenerateScramble(draws), ResultList([]), None);
      activeSessions := activeSessions[username := session];
      NotifyUser(username, session);
    }

    method HandleReady(username: string, now: int)
      modifies this
      ensures State() == MadeReady(old(State()), username, now)
    {
      if username !in activeSessions || activeSessions[username].state != Scrambling {
        return;
      }
      var session := activeSessions[username];
      if session.kind == Solo {
        session := session.(state := Solving);
        session := session.(startTime := Some(now));
        activeSessions := activeSessions[username := session];
        NotifyUser(username, session);
      }
    }

    /** Returns the caller's result object as the call leaves it. */
    method HandleSolveComplete(username: string, report: SolveReport, now: int) returns (after: SolveReport)
      modifies this
      ensures State() == SolveCompleted(old(State()), username, report, now)
      ensures after == ReportAfter(old(State()), username, report, now)
    {
      after := report;
      if username !in activeSessions || NoStartTime(activeSessions[username]) {
        return;
      }
      var session := activeSessions[username];
      var serverTime := now - session.startTime.value;
      var timeDiff := Abs(serverTime - after.time);
      if timeDiff > MaxClockSkewMs {
        after := after.(time := serverTime);
      }
      if session.kind == Solo {
        session := session.(results := SingleResult(after));
        session := session.(state := Complete);
        activeSessions := activeSessions[username := session];
        NotifyUser(username, session);
      }
    }

    method NotifyUser(username: string, session: CompetitionSession)
      modifies this
      ensures State() == Notified(old(State()), username, session)
    {
      if username in connections {
        sent := sent + [Sent(username, session)];
      }
    }
  }
}
