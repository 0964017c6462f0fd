/** The competition store of the Vue client (useCompetitionStore.ts): the current
    session, the connection state, the last error and the competitors, with derived
    getters and one setter per field. */
module CompetitionStore {
  import opened Common
  import opened Records

  datatype SessionType = SoloType | MultiType

  datatype SessionState = Queuing | Scrambling | Solving | Complete

  datatype CubeType = ThreeByThree | TwoByTwo

  datatype ConnectionState = Disconnected | Connecting | Connected

  /** A session as the client receives it. */
  datatype Session = Session(id: string, kind: SessionType, state: SessionState, cubeType: CubeType,
                             participants: seq<string>, scramble: string,
                             results: seq<Entry<SolveResult>>, startTime: Option<int>)

  class Store {
    var session: Option<Session>
    var connectionState: ConnectionState
    var error: Option<string>
    var competitors: seq<string>

    constructor ()
      ensures session.None? && connectionState == Disconnected && error.None? && competitors == []
    {
      session, connectionState, error, competitors := None, Disconnected, None, [];
    }

    /** isActive */
    predicate IsActive()
      reads this
    {
      session.Some?
    }

    /** currentState: null without a session. */
    function CurrentState(): (s: Option<SessionState>)
      reads this
      ensures s.Some? <==> IsActive()
      ensures s.Some? ==> s.value == session.value.state
    {
      if session.Some? then Some(session.value.state) else None
    }

    /** currentScramble: empty without a session. */
    function CurrentScramble(): (s: string)
      reads this
      ensures session.None? ==> s == ""
      ensures session.Some? ==> s == session.value.scramble
    {
      if session.Some? then session.value.scramble else ""
    }

    /** canStart */
    predicate CanStart()
      reads this
    {
      connectionState == Connected && session.Some? && session.value.state == Scrambling
    }

    /** solveTime: the time of the first result in insertion order, null when there is
        no session, no result, or that time is 0. */
    function SolveTime(): (t: Option<int>)
      reads this
      ensures t.Some? <==> session.Some? && session.value.results != [] && session.value.results[0].value.time != 0
      ensures t.Some? ==> t.value == session.value.results[0].value.time
    {
      if session.None? then None
      else
        var values := Values(session.value.results);
        if values == [] || values[0].time == 0 then None else Some(values[0].time)
    }

    /** penalty: the penalty of the first result, "none" without one. */
    function PenaltyOf(): (p: Penalty)
      reads this
      ensures session.None? || session.value.results == [] ==> p == NoPenalty
      ensures session.Some? && session.value.results != [] ==> p == session.value.results[0].value.penalty
    {
      if session.None? then NoPenalty
      else
        var values := Values(session.value.results);
        if values == [] then NoPenalty else values[0].penalty
    }

    /** Only an active session can be started, and only once connected. */
    lemma CanStartSpec()
      ensures CanStart() <==> connectionState == Connected && CurrentState() == Some(Scrambling)
      ensures CanStart() ==> IsActive()
    {
    }

    method UpdateSession(newSession: Session)
      modifies this
      ensures session == Some(newSession)
      ensures connectionState == old(connectionState) && error == old(error) && competitors == old(competitors)
    {
      session := Some(newSession);
    }

    method SetConnectionState(state: ConnectionState)
      modifies this
      ensures connectionState == state
      ensures session == old(session) && error == old(error) && competitors == old(competitors)
    {
      connectionState := state;
    }

    method SetError(message: Option<string>)
      modifies this
      ensures error == message
      ensures session == old(session) && connectionState == old(connectionState) && competitors == old(competitors)
    {
      error := message;
    }

    /** reset clears the session and the error; the connection and competitors stay. */
    method Reset()
      modifies this
      ensures session.None? && error.None?
      ensures connectionState == old(connectionState) && competitors == old(competitors)
      ensures !IsActive() && !CanStart() && SolveTime().None? && PenaltyOf() == NoPenalty && CurrentScramble() == ""
    {
      session := None;
      error := None;
    }

    method UpdateCompetitors(participants: seq<string>)
      modifies this
      ensures competitors == participants
      ensures session == old(session) && connectionState == old(connectionState) && error == old(error)
    {
      competitors := participants;
    }
  }
}
