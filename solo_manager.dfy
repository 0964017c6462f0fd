/** The solo session manager of the competition service (solo_manager.ts).

    Each connected user may have one solo session, keyed by username. A session goes
    from "scrambling" (a scramble is shown) to "solving" (the server notes the start
    time) to "results" (the solve time is recorded); a penalty may then be applied.
    Messages to a user go over their socket; a user without a socket is disconnected.

    The clock (Date.now()), fresh ids (crypto.randomUUID()) and the random draws of the
    scramble generator are parameters; sent messages are appended to the log `sent`. */
module SoloManager {
  import opened Common
  import opened Scrambler

  datatype SessionState = Scrambling | Solving | Results

  datatype SoloResult = SoloResult(id: string, time: int, penalty: Penalty)

  datatype SoloSession = SoloSession(id: string, state: SessionState, cubeType: string, participant: string,
                                     scramble: string, startTime: Option<int>, result: Option<SoloResult>)

  /** The messages a client sends; any other type is Other. */
  datatype ClientMessage =
    | CreateSession(cubeType: string)
    | StartSolve
    | CompleteSolve(time: int)
    | ApplyPenalty(penalty: Option<Penalty>)
    | EndSession
    | Other(kind: string)

  datatype ServerMessage =
    | SessionCreated(state: SessionState, scramble: string)
    | SolveStarted(state: SessionState, startTime: int)
    | SolveCompleted(state: SessionState, result: SoloResult)
    | PenaltyApplied(state: SessionState, result: SoloResult)
    | Error(text: string)

  /** An open WebSocket, known only by identity. */
  datatype Socket = Socket(id: nat)

  datatype Sent = Sent(to: string, message: ServerMessage)

  /** The whole state of the manager: its two maps and the messages sent so far. */
  datatype Solo = Solo(sessions: map<string, SoloSession>, connections: map<string, Socket>, sent: seq<Sent>)

  /** `!session.start_time`: no start time, or the start time 0. */
  predicate NoStartTime(s: SoloSession) {
    s.startTime.None? || s.startTime.value == 0
  }

  function StartErrorText(username: string): string {
    "Invalid state, user " + username + " is not in a valid state to start solving"
  }

  function CompleteErrorText(username: string): string {
    "Invalid state, user " + username + " is not in a valid state to complete a solve"
  }

  function PenaltyErrorText(username: string): string {
    "User " + username + " is not in a session to apply a penalty"
  }

  // ---------------------------------------------------------------------------
  // The handlers as functions of the state

  /** handleDisconnect */
  function Disconnected(st: Solo, username: string): (r: Solo)
    ensures username !in r.sessions && username !in r.connections && r.sent == st.sent
    ensures forall u :: u != username ==> (u in r.sessions <==> u in st.sessions) && (u in r.connections <==> u in st.connections)
    ensures forall u :: u != username && u in r.sessions ==> r.sessions[u] == st.sessions[u]
  {
    st.(sessions := st.sessions - {username}, connections := st.connections - {username})
  }

  /** notifyUser: the message goes out over the user's socket; without a socket the
      user is disconnected instead. */
  function Notified(st: Solo, username: string, message: ServerMessage): (r: Solo)
    ensures username in st.connections ==> r == st.(sent := st.sent + [Sent(username, message)])
    ensures username !in st.connections ==> r == Disconnected(st, username)
  {
    if username !in st.connections then Disconnected(st, username)
    else st.(sent := st.sent + [Sent(username, message)])
  }

  /** addConnection */
  function Connected(st: Solo, username: string, ws: Socket): (r: Solo)
    ensures username !in r.sessions && r.connections == st.connections[username := ws] && r.sent == st.sent
    ensures forall u :: u != username ==> (u in r.sessions <==> u in st.sessions)
    ensures forall u :: u != username && u in r.sessions ==> r.sessions[u] == st.sessions[u]
  {
    st.(connections := st.connections[username := ws], sessions := st.sessions - {username})
  }

  /** The session handleCreateSession stores. */
  function NewSession(username: string, cubeType: string, id: string, draws: seq<Draw>): SoloSession
    requires ValidDraws(draws)
  {
    SoloSession(id, Scrambling, cubeType, username, GenerateScramble(draws), None, None)
  }

  /** handleCreateSession */
  function SessionCreatedIn(st: Solo, username: string, cubeType: string, id: string, draws: seq<Draw>): Solo
    requires ValidDraws(draws)
  {
    var session := NewSession(username, cubeType, id, draws);
    Notified(st.(sessions := st.sessions[username := session]), username, SessionCreated(session.state, session.scramble))
  }

  /** handleStartSolve */
  function SolveStartedIn(st: Solo, username: string, now: int): Solo {
    if username !in st.sessions || st.sessions[username].state != Scrambling then
      Notified(st, username, Error(StartErrorText(username)))
    else
      var session := st.sessions[username].(state := Solving, startTime := Some(now));
      Notified(st.(sessions := st.sessions[username := session]), username, SolveStarted(session.state, now))
  }

  /** The result handleSolveComplete records: the reconciled time, no penalty. */
  function RecordedResult(session: SoloSession, id: string, time: int, now: int): SoloResult
    requires !NoStartTime(session)
  {
    SoloResult(id, ReconciledTime(time, now - session.startTime.value), NoPenalty)
  }

  /** handleSolveComplete */
  function SolveCompletedIn(st: Solo, username: string, time: int, now: int, id: string): Solo {
    if username !in st.sessions || NoStartTime(st.sessions[username]) then
      Notified(st, username, Error(CompleteErrorText(username)))
    else
      var result := RecordedResult(st.sessions[username], id, time, now);
      var session := st.sessions[username].(result := Some(result), state := Results);
      Notified(st.(sessions := st.sessions[username := session]), username, SolveCompleted(session.state, result))
  }

  /** handlePenalty; a missing penalty defaults to "none". */
  function PenaltyAppliedIn(st: Solo, username: string, penalty: Option<Penalty>): Solo {
    if username !in st.sessions || st.sessions[username].result.None? then
      Notified(st, username, Error(PenaltyErrorText(username)))
    else
      var p := if penalty.Some? then penalty.value else NoPenalty;
      var old_ := st.sessions[username];
      var session := old_.(result := Some(old_.result.value.(penalty := p)));
      Notified(st.(sessions := st.sessions[username := session]), username, PenaltyApplied(session.state, session.result.value))
  }

  /** handleMessage: dispatch on the message type; other types are ignored. */
  function Handled(st: Solo, username: string, message: ClientMessage, now: int, id: string, draws: seq<Draw>): Solo
    requires ValidDraws(draws)
  {
    match message
    case CreateSession(cubeType) => SessionCreatedIn(st, username, cubeType, id, draws)
    case StartSolve => SolveStartedIn(st, username, now)
    case CompleteSolve(time) => SolveCompletedIn(st, username, time, now, id)
    case ApplyPenalty(penalty) => PenaltyAppliedIn(st, username, penalty)
    case EndSession => Disconnected(st, username)
    case Other(_) => st
  }

  // ---------------------------------------------------------------------------
  // Properties

  /** A new connection drops any session the user had and nothing else. */
  lemma ConnectDropsSession(st: Solo, username: string, ws: Socket)
    ensures var r := Connected(st, username, ws);
      username !in r.sessions && r.connections[username] == ws &&
      forall u :: u != username && u in st.sessions ==> u in r.sessions && r.sessions[u] == st.sessions[u]
  {
  }

  /** create_session replaces any session with a fresh one in "scrambling", whatever the
      cube type, and announces it; a user without a socket ends up with no session. */
  lemma CreateSessionFresh(st: Solo, username: string, cubeType: string, id: string, draws: seq<Draw>)
    requires ValidDraws(draws)
    ensures var r := SessionCreatedIn(st, username, cubeType, id, draws);
      if username in st.connections then
        username in r.sessions &&
        r.sessions[username] == SoloSession(id, Scrambling, cubeType, username, GenerateScramble(draws), None, None) &&
        r.sent == st.sent + [Sent(username, SessionCreated(Scrambling, GenerateScramble(draws)))]
      else
        username !in r.sessions && username !in r.connections
  {
  }

  /** start_solve succeeds exactly from "scrambling": the session moves to "solving" with
      the start time now. Otherwise an error is sent and no session changes. Either way
      the notification of a user without a socket disconnects them instead, so nothing
      is sent and their session is dropped. */
  lemma StartSolveSpec(st: Solo, username: string, now: int)
    ensures var r := SolveStartedIn(st, username, now);
      if username !in st.connections then
        r == st.(sessions := st.sessions - {username})
      else if username in st.sessions && st.sessions[username].state == Scrambling then
        r.sessions == st.sessions[username := st.sessions[username].(state := Solving, startTime := Some(now))] &&
        r.connections == st.connections && r.sent == st.sent + [Sent(username, SolveStarted(Solving, now))]
      else
        r.sessions == st.sessions && r.connections == st.connections &&
        r.sent == st.sent + [Sent(username, Error(StartErrorText(username)))]
  {
  }

  /** complete_solve is refused without a session or without a (non-zero) start time;
      otherwise it records the client's time when within 2000 ms of the server's
      measurement and the server's measurement otherwise, with no penalty, moves the
      session to "results" and sends solve_completed. It never looks at the state. A
      user without a socket is disconnected instead of notified. */
  lemma CompleteSolveSpec(st: Solo, username: string, time: int, now: int, id: string)
    ensures var r := SolveCompletedIn(st, username, time, now, id);
      if username !in st.connections then
        r == st.(sessions := st.sessions - {username})
      else if username !in st.sessions || NoStartTime(st.sessions[username]) then
        r.sessions == st.sessions && r.connections == st.connections &&
        r.sent == st.sent + [Sent(username, Error(CompleteErrorText(username)))]
      else
        var s := st.sessions[username];
        var serverTime := now - s.startTime.value;
        var t := if Abs(serverTime - time) <= 2000 then time else serverTime;
        var result := SoloResult(id, t, NoPenalty);
        r.sessions == st.sessions[username := s.(state := Results, result := Some(result))] &&
        r.connections == st.connections && r.sent == st.sent + [Sent(username, SolveCompleted(Results, result))]
  {
  }

  /** Because the state is not checked, a second complete_solve from "results"
      overwrites the recorded result. */
  lemma CompleteSolveTwice(st: Solo, username: string, t1: int, t2: int, now1: int, now2: int, id1: string, id2: string)
    requires username in st.connections && username in st.sessions && !NoStartTime(st.sessions[username])
    ensures var r1 := SolveCompletedIn(st, username, t1, now1, id1);
      var r2 := SolveCompletedIn(r1, username, t2, now2, id2);
      r1.sessions[username].state == Results && username in r2.sessions &&
      r2.sessions[username].result == Some(RecordedResult(st.sessions[username], id2, t2, now2))
  {
  }

  /** apply_penalty needs a recorded result and changes only its penalty, then sends
      penalty_applied; otherwise it sends an error. A user without a socket is
      disconnected instead of notified. */
  lemma PenaltySpec(st: Solo, username: string, penalty: Option<Penalty>)
    ensures var r := PenaltyAppliedIn(st, username, penalty);
      if username !in st.connections then
        r == st.(sessions := st.sessions - {username})
      else if username !in st.sessions || st.sessions[username].result.None? then
        r.sessions == st.sessions && r.connections == st.connections &&
        r.sent == st.sent + [Sent(username, Error(PenaltyErrorText(username)))]
      else
        var s := st.sessions[username];
        var p := if penalty.Some? then penalty.value else NoPenalty;
        var result := SoloResult(s.result.value.id, s.result.value.time, p);
        r.sessions == st.sessions[username := s.(result := Some(result))] &&
        r.connections == st.connections && r.sent == st.sent + [Sent(username, PenaltyApplied(s.state, result))]
  {
  }

  /** end_session removes both the user's session and their socket. */
  lemma EndSessionRemoves(st: Solo, username: string, now: int, id: string, draws: seq<Draw>)
    requires ValidDraws(draws)
    ensures var r := Handled(st, username, EndSession, now, id, draws);
      username !in r.sessions && username !in r.connections
  {
  }

  /** A message of any other type changes nothing. */
  lemma UnknownMessageIgnored(st: Solo, username: string, kind: string, now: int, id: string, draws: seq<Draw>)
    requires ValidDraws(draws)
    ensures Handled(st, username, Other(kind), now, id, draws) == st
  {
  }

  /** After end_session the socket is forgotten, so a later create_session on the same
      socket is announced to nobody and leaves no session. */
  lemma NoSessionAfterEnd(st: Solo, username: string, cubeType: string, now: int, id: string, draws: seq<Draw>)
    requires ValidDraws(draws)
    ensures var r := Handled(Handled(st, username, EndSession, now, id, draws), username, CreateSession(cubeType), now, id, draws);
      username !in r.sessions && username !in r.connections
  {
  }

  /** The shape of a session in each state, and that sessions belong to connected
      users under their own name. */
  ghost predicate WellFormed(s: SoloSession) {
    (s.state == Scrambling ==> s.startTime.None? && s.result.None?) &&
    (s.state == Solving ==> s.startTime.Some? && s.result.None?) &&
    (s.state == Results ==> s.startTime.Some? && s.result.Some?)
  }

  ghost predicate Invariant(st: Solo) {
    forall u :: u in st.sessions ==> u in st.connections && st.sessions[u].participant == u && WellFormed(st.sessions[u])
  }

  lemma InvariantConnect(st: Solo, username: string, ws: Socket)
    requires Invariant(st)
    ensures Invariant(Connected(st, username, ws))
  {
  }

  /** Notifying keeps the invariant once the user's own session, if any, is well formed
      and theirs: without a socket it is dropped. */
  lemma InvariantNotified(st: Solo, username: string, message: ServerMessage)
    requires forall u :: u in st.sessions && u != username ==> u in st.connections && st.sessions[u].participant == u && WellFormed(st.sessions[u])
    requires username in st.sessions ==> st.sessions[username].participant == username && WellFormed(st.sessions[username])
    ensures Invariant(Notified(st, username, message))
  {
  }

  lemma InvariantCreate(st: Solo, username: string, cubeType: string, id: string, draws: seq<Draw>)
    requires Invariant(st) && ValidDraws(draws)
    ensures Invariant(SessionCreatedIn(st, username, cubeType, id, draws))
  {
    var session := NewSession(username, cubeType, id, draws);
    InvariantNotified(st.(sessions := st.sessions[username := session]), username, SessionCreated(session.state, session.scramble));
  }

  lemma InvariantStart(st: Solo, username: string, now: int)
    requires Invariant(st)
    ensures Invariant(SolveStartedIn(st, username, now))
  {
    if username !in st.sessions || st.sessions[username].state != Scrambling {
      InvariantNotified(st, username, Error(StartErrorText(username)));
    } else {
      var session := st.sessions[username].(state := Solving, startTime := Some(now));
      InvariantNotified(st.(sessions := st.sessions[username := session]), username, SolveStarted(session.state, now));
    }
  }

  lemma InvariantComplete(st: Solo, username: string, time: int, now: int, id: string)
    requires Invariant(st)
    ensures Invariant(SolveCompletedIn(st, username, time, now, id))
  {
    if username !in st.sessions || NoStartTime(st.sessions[username]) {
      InvariantNotified(st, username, Error(CompleteErrorText(username)));
    } else {
      var result := RecordedResult(st.sessions[username], id, time, now);
      var session := st.sessions[username].(result := Some(result), state := Results);
      InvariantNotified(st.(sessions := st.sessions[username := session]), username, SolveCompleted(session.state, result));
    }
  }

  lemma InvariantPenalty(st: Solo, username: string, penalty: Option<Penalty>)
    requires Invariant(st)
    ensures Invariant(PenaltyAppliedIn(st, username, penalty))
  {
    if username !in st.sessions || st.sessions[username].result.None? {
      InvariantNotified(st, username, Error(PenaltyErrorText(username)));
    } else {
      var p := if penalty.Some? then penalty.value else NoPenalty;
      var old_ := st.sessions[username];
      var session := old_.(result := Some(old_.result.value.(penalty := p)));
      InvariantNotified(st.(sessions := st.sessions[username := session]), username, PenaltyApplied(session.state, session.result.value));
    }
  }

  /** Every message keeps sessions well formed and owned by connected users. */
  lemma InvariantHandled(st: Solo, username: string, message: ClientMessage, now: int, id: string, draws: seq<Draw>)
    requires Invariant(st) && ValidDraws(draws)
    ensures Invariant(Handled(st, username, message, now, id, draws))
  {
    match message
    case CreateSession(cubeType) => InvariantCreate(st, username, cubeType, id, draws);
    case StartSolve => InvariantStart(st, username, now);
    case CompleteSolve(time) => InvariantComplete(st, username, time, now, id);
    case ApplyPenalty(penalty) => InvariantPenalty(st, username, penalty);
    case EndSession =>
    case Other(_) =>
  }

  // ---------------------------------------------------------------------------
  // The manager object

  class Manager {
    var activeSessions: map<string, SoloSession>
    var connections: map<string, Socket>
    var sent: seq<Sent>

    function State(): Solo
      reads this
    {
      Solo(activeSessions, connections, sent)
    }

    constructor ()
      ensures State() == Solo(map[], map[], [])
    {
      activeSessions, connections, sent := map[], map[], [];
    }

    method AddConnection(username: string, ws: Socket)
      modifies this
      ensures State() == Connected(old(State()), username, ws)
    {
      connections := connections[username := ws];
      activeSessions := activeSessions - {username};
    }

    method HandleDisconnect(username: string)
      modifies this
      ensures State() == Disconnected(old(State()), username)
    {
      activeSessions := activeSessions - {username};
      connections := connections - {username};
    }

    /** getActiveSession */
    function GetActiveSession(username: string): (r: Option<SoloSession>)
      reads this
      ensures r.Some? <==> username in activeSessions
      ensures r.Some? ==> r.value == activeSessions[username]
    {
      if username in activeSessions then Some(activeSessions[username]) else None
    }

    method NotifyUser(username: string, message: ServerMessage)
      modifies this
      ensures State() == Notified(old(State()), username, message)
    {
      if username !in connections {
        HandleDisconnect(username);
        return;
      }
      sent := sent + [Sent(username, message)];
    }

    method HandleCreateSession(username: string, cubeType: string, id: string, draws: seq<Draw>)
      requires ValidDraws(draws)
      modifies this
      ensures State() == SessionCreatedIn(old(State()), username, cubeType, id, draws)
    {
      var session := SoloSession(id, Scrambling, cubeType, username, GenerateScramble(draws), None, None);
      activeSessions := activeSessions[username := session];
      NotifyUser(username, SessionCreated(session.state, session.scramble));
    }

    method HandleStartSolve(username: string, now: int)
      modifies this
      ensures State() == SolveStartedIn(old(State()), username, now)
    {
      if username !in activeSessions || activeSessions[username].state != Scrambling {
        NotifyUser(username, Error(StartErrorText(username)));
        return;
      }
      var session := activeSessions[username];
      session := session.(state := Solving);
      session := session.(startTime := Some(now));
      activeSessions := activeSessions[username := session];
      NotifyUser(username, SolveStarted(session.state, session.startTime.value));
    }

    method HandleSolveComplete(username: string, time: int, now: int, id: string)
      modifies this
      ensures State() == SolveCompletedIn(old(State()), username, time, now, id)
    {
      if username !in activeSessions || NoStartTime(activeSessions[username]) {
        NotifyUser(username, Error(CompleteErrorText(username)));
        return;
      }
      var session := activeSessions[username];
      var result := SoloResult(id, time, NoPenalty);
      var serverTime := now - session.startTime.value;
      var timeDiff := Abs(serverTime - result.time);
      if timeDiff > MaxClockSkewMs {
        result := result.(time := serverTime);
      }
      session := session.(result := Some(result));
      session := session.(state := Results);
      activeSessions := activeSessions[username := session];
      NotifyUser(username, SolveCompleted(session.state, result));
    }

    method HandlePenalty(username: string, penalty: Option<Penalty>)
      modifies this
      ensures State() == PenaltyAppliedIn(old(State()), username, penalty)
    {
      var p := if penalty.Some? then penalty.value else NoPenalty;
      if username !in activeSessions || activeSessions[username].result.None? {
        NotifyUser(username, Error(PenaltyErrorText(username)));
        return;
      }
      var session := activeSessions[username];
      session := session.(result := Some(session.result.value.(penalty := p)));
      activeSessions := activeSessions[username := session];
      NotifyUser(username, PenaltyApplied(session.state, session.result.value));
    }

    method HandleMessage(username: string, message: ClientMessage, now: int, id: string, draws: seq<Draw>)
      requires ValidDraws(draws)
      modifies this
      ensures State() == Handled(old(State()), username, message, now, id, draws)
    {
      match message
      case CreateSession(cubeType) => HandleCreateSession(username, cubeType, id, draws);
      case StartSolve => HandleStartSolve(username, now);
      case CompleteSolve(time) => HandleSolveComplete(username, time, now, id);
      case ApplyPenalty(penalty) => HandlePenalty(username, penalty);
      case EndSession => HandleDisconnect(username);
      case Other(_) =>
    }
  }
}
