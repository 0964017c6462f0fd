/** The client side of a multiplayer race (useMultiNew.ts): the view of the race that
    server messages update, the guard on sending, and the actions a component may call.

    The hook's React state becomes the fields of a class. The WebSocket is reduced to
    its ready state; a message sent over it is appended to the log `sent`. */
module MultiClient {
  import opened Common
  import opened Records

  datatype SessionState = Queuing | Connecting | Scrambling | Countdown | Solving | Results

  datatype ConnectionState = Disconnected | ConnectingState | Connected

  datatype PeerInfo = PeerInfo(username: string, isReady: bool)

  /** The race as the client sees it. A null or absent main state is None. */
  datatype View = View(mainState: Option<SessionState>, scramble: Option<string>,
                       results: seq<Entry<SolveResult>>, peers: seq<Entry<PeerInfo>>, error: Option<string>)

  /** The state the hook starts from and that cleanup restores. */
  const Cleared := View(None, None, [], [], None)

  datatype ServerKind =
    | StateChange | ServerError | PeerReady | PeerUnready | PeerDisconnected
    | CountdownStarted | CountdownCanceled | ResultsUpdate
    | ServerRtcOffer | ServerRtcAnswer | ServerRtcCandidate
    | OtherKind(kind: string)

  /** The payload fields the reducer reads; absent fields are None. */
  datatype Payload = Payload(state: Option<SessionState>, scramble: Option<string>,
                             results: Option<seq<Entry<SolveResult>>>, peers: Option<seq<Entry<PeerInfo>>>,
                             peer: Option<string>, message: Option<string>)

  datatype ServerMessage = ServerMessage(kind: ServerKind, payload: Option<Payload>)

  /** `!x` for a string field: absent or empty. */
  predicate Blank(s: Option<string>) {
    s.None? || s.value == ""
  }

  /** A state_change into 'queuing', which runs cleanup. */
  predicate EndsRace(m: ServerMessage) {
    m.payload.Some? && m.kind == StateChange && m.payload.value.state == Some(Queuing)
  }

  /** The peer entry after a ready or unready message: the existing entry, or one made
      from the name, with the new flag. */
  function Marked(peers: seq<Entry<PeerInfo>>, peer: string, ready: bool): PeerInfo {
    match Lookup(peers, peer)
    case Some(info) => info.(isReady := ready)
    case None => PeerInfo(peer, ready)
  }

  /** handleServerMessage's update of the view. */
  function Reduced(prev: View, m: ServerMessage): View {
    if m.payload.None? then prev
    else
      var p := m.payload.value;
      match m.kind
      case StateChange =>
        if p.state == Some(Queuing) then Cleared
        else prev.(mainState := p.state, scramble := p.scramble,
                   results := if p.results.Some? then p.results.value else prev.results,
                   peers := if p.peers.Some? then p.peers.value else prev.peers)
      case PeerReady =>
        if Blank(p.peer) then prev else prev.(peers := Put(prev.peers, p.peer.value, Marked(prev.peers, p.peer.value, true)))
      case PeerUnready =>
        if Blank(p.peer) then prev else prev.(peers := Put(prev.peers, p.peer.value, Marked(prev.peers, p.peer.value, false)))
      case PeerDisconnected =>
        if Blank(p.peer) then prev
        else prev.(error := Some("Peer " + p.peer.value + " disconnected"), peers := Remove(prev.peers, p.peer.value))
      case ResultsUpdate =>
        if p.results.None? then prev else prev.(results := p.results.value)
      case ServerError =>
        if Blank(p.message) then prev else prev.(error := p.message)
      case _ => prev
  }

  // ---------------------------------------------------------------------------
  // Properties of the reducer

  /** A message without a payload changes nothing. */
  lemma NoPayloadNoChange(prev: View, kind: ServerKind)
    ensures Reduced(prev, ServerMessage(kind, None)) == prev
  {
  }

  /** A state change into 'queuing' clears the view. */
  lemma QueuingClears(prev: View, m: ServerMessage)
    requires EndsRace(m)
    ensures Reduced(prev, m) == View(None, None, [], [], None)
  {
  }

  /** Any other state change sets the main state and the scramble (to nothing when the
      payload has none), and keeps results and peers the payload leaves out. */
  lemma StateChangeSpec(prev: View, p: Payload)
    requires p.state != Some(Queuing)
    ensures var v := Reduced(prev, ServerMessage(StateChange, Some(p)));
      v.mainState == p.state && v.scramble == p.scramble && v.error == prev.error &&
      (p.results.None? ==> v.results == prev.results) && (p.results.Some? ==> v.results == p.results.value) &&
      (p.peers.None? ==> v.peers == prev.peers) && (p.peers.Some? ==> v.peers == p.peers.value)
  {
  }

  /** peer_ready and peer_unready set the flag of that peer alone, adding the peer under
      its own name when new; nothing else changes. */
  lemma PeerFlagSpec(prev: View, p: Payload, ready: bool)
    requires !Blank(p.peer)
    ensures var v := Reduced(prev, ServerMessage(if ready then PeerReady else PeerUnready, Some(p)));
      var peer := p.peer.value;
      Lookup(v.peers, peer).Some? && Lookup(v.peers, peer).value.isReady == ready &&
      (Lookup(prev.peers, peer).None? ==> Lookup(v.peers, peer).value.username == peer) &&
      (Lookup(prev.peers, peer).Some? ==> Lookup(v.peers, peer).value.username == Lookup(prev.peers, peer).value.username) &&
      (forall q :: q != peer ==> Lookup(v.peers, q) == Lookup(prev.peers, q)) &&
      v.(peers := prev.peers) == prev
  {
  }

  /** peer_disconnected removes that peer and reports it; the other peers stay. */
  lemma PeerDisconnectedSpec(prev: View, p: Payload)
    requires !Blank(p.peer)
    ensures var v := Reduced(prev, ServerMessage(PeerDisconnected, Some(p)));
      Lookup(v.peers, p.peer.value).None? &&
      (forall q :: q != p.peer.value ==> Lookup(v.peers, q) == Lookup(prev.peers, q)) &&
      v.error == Some("Peer " + p.peer.value + " disconnected") &&
      v.(peers := prev.peers, error := prev.error) == prev
  {
  }

  /** results_update replaces the results; an error message sets the error when it is
      not empty; a missing peer, results or message changes nothing. */
  lemma OtherFieldsSpec(prev: View, p: Payload)
    ensures p.results.Some? ==> Reduced(prev, ServerMessage(ResultsUpdate, Some(p))) == prev.(results := p.results.value)
    ensures p.results.None? ==> Reduced(prev, ServerMessage(ResultsUpdate, Some(p))) == prev
    ensures !Blank(p.message) ==> Reduced(prev, ServerMessage(ServerError, Some(p))) == prev.(error := p.message)
    ensures Blank(p.message) ==> Reduced(prev, ServerMessage(ServerError, Some(p))) == prev
    ensures Blank(p.peer) ==> Reduced(prev, ServerMessage(PeerReady, Some(p))) == prev &&
                              Reduced(prev, ServerMessage(PeerUnready, Some(p))) == prev &&
                              Reduced(prev, ServerMessage(PeerDisconnected, Some(p))) == prev
  {
  }

  /** The switch has no case for the countdown and WebRTC messages, for peer_update or
      session_ended, or for any other type: those change nothing. */
  lemma IgnoredKindsKeepView(prev: View, m: ServerMessage)
    requires m.kind !in {StateChange, PeerReady, PeerUnready, PeerDisconnected, ResultsUpdate, ServerError}
    ensures Reduced(prev, m) == prev
  {
  }

  /** Records the server sends have no repeated keys, and the reducer keeps it so. */
  ghost predicate WellKeyed(v: View) {
    UniqueKeys(v.results) && UniqueKeys(v.peers)
  }

  ghost predicate WellKeyedMessage(m: ServerMessage) {
    m.payload.Some? ==>
      (m.payload.value.results.Some? ==> UniqueKeys(m.payload.value.results.value)) &&
      (m.payload.value.peers.Some? ==> UniqueKeys(m.payload.value.peers.value))
  }

  lemma ReducedWellKeyed(prev: View, m: ServerMessage)
    requires WellKeyed(prev) && WellKeyedMessage(m)
    ensures WellKeyed(Reduced(prev, m))
  {
    if m.payload.Some? && !Blank(m.payload.value.peer) {
      var peer := m.payload.value.peer.value;
      if m.kind == PeerReady {
        PutUnique(prev.peers, peer, Marked(prev.peers, peer, true));
      } else if m.kind == PeerUnready {
        PutUnique(prev.peers, peer, Marked(prev.peers, peer, false));
      } else if m.kind == PeerDisconnected {
        RemoveUnique(prev.peers, peer);
      }
    }
  }

  // ---------------------------------------------------------------------------
  // Messages the client sends

  datatype ClientKind =
    | StartQ | CancelQ | ChatMessage | RtcOffer | RtcAnswer | RtcCandidate | RtcConnected
    | FinishScramble | StartCountdown | CancelCountdown | FinishSolve | ApplyPenalty | LeaveSession

  datatype CubeType = ThreeByThree | TwoByTwo

  datatype RtcType = Offer | Answer | Candidate

  /** The payload of a client message; an RTC signal's payload is opaque. */
  datatype ClientPayload =
    | NoPayload
    | CubeTypePayload(cubeType: CubeType)
    | SignalPayload(signal: string)
    | TimePayload(time: int)
    | PenaltyPayload(penalty: Penalty)

  datatype ClientMessage = ClientMessage(kind: ClientKind, payload: ClientPayload)

  /** The calls a component can make on `actions`. */
  datatype Action =
    | StartQueue(cubeType: CubeType)
    | CancelQueue
    | SendRtcSignal(rtcType: RtcType, signal: string)
    | FinishScrambleAction
    | StartCountdownAction
    | CancelCountdownAction
    | FinishSolveAction(time: int)
    | ApplyPenaltyAction(penalty: Penalty)
    | LeaveSessionAction

  /** The message each action sends. */
  function MessageFor(a: Action): ClientMessage {
    match a
    case StartQueue(cubeType) => ClientMessage(StartQ, CubeTypePayload(cubeType))
    case CancelQueue => ClientMessage(CancelQ, NoPayload)
    case SendRtcSignal(rtcType, signal) =>
      ClientMessage(match rtcType case Offer => RtcOffer case Answer => RtcAnswer case Candidate => RtcCandidate,
                    SignalPayload(signal))
    case FinishScrambleAction => ClientMessage(FinishScramble, NoPayload)
    case StartCountdownAction => ClientMessage(StartCountdown, NoPayload)
    case CancelCountdownAction => ClientMessage(CancelCountdown, NoPayload)
    case FinishSolveAction(time) => ClientMessage(FinishSolve, TimePayload(time))
    case ApplyPenaltyAction(penalty) => ClientMessage(ApplyPenalty, PenaltyPayload(penalty))
    case LeaveSessionAction => ClientMessage(LeaveSession, NoPayload)
  }

  /** Different actions send different messages, and none sends a chat message or
      rtc_connected. */
  lemma MessageForInjective(a: Action, b: Action)
    ensures MessageFor(a) == MessageFor(b) ==> a == b
    ensures MessageFor(a).kind != ChatMessage && MessageFor(a).kind != RtcConnected
  {
  }

  /** The ready state of a WebSocket. */
  datatype SocketState = SocketConnecting | Open | Closing | Closed

  /** sendMessage: appended to the log only over an open socket. */
  function AfterSend(sent: seq<ClientMessage>, socket: Option<SocketState>, m: ClientMessage): (r: seq<ClientMessage>)
  {
    if socket == Some(Open) then sent + [m] else sent
  }

  lemma SendNeedsOpenSocket(sent: seq<ClientMessage>, socket: Option<SocketState>, m: ClientMessage)
    ensures socket == Some(Open) <==> AfterSend(sent, socket, m) == sent + [m]
    ensures socket != Some(Open) <==> AfterSend(sent, socket, m) == sent
  {
    if socket == Some(Open) {
      assert |AfterSend(sent, socket, m)| == |sent| + 1;
    }
  }

  // ---------------------------------------------------------------------------
  // The hook

  class MultiRace {
    var connectionState: ConnectionState
    var view: View
    /** wsRef.current */
    var socket: Option<SocketState>
    var sent: seq<ClientMessage>
    /** How many times a socket was closed. */
    var closes: nat

    constructor ()
      ensures connectionState == Disconnected && view == Cleared && socket.None? && sent == [] && closes == 0
    {
      connectionState, view, socket, sent, closes := Disconnected, Cleared, None, [], 0;
    }

    /** cleanup: close and forget the socket, mark the connection down, clear the view. */
    method Cleanup()
      modifies this
      ensures socket.None? && connectionState == Disconnected && view == Cleared && sent == old(sent)
      ensures closes == if old(socket).Some? then old(closes) + 1 else old(closes)
    {
      if socket.Some? {
        closes := closes + 1;
        socket := None;
      }
      connectionState := Disconnected;
      view := View(None, None, [], [], None);
    }

    method SendMessage(m: ClientMessage)
      modifies this
      ensures sent == AfterSend(old(sent), old(socket), m)
      ensures view == old(view) && socket == old(socket) && connectionState == old(connectionState) && closes == old(closes)
    {
      if socket.None? || socket.value != Open {
        return;
      }
      sent := sent + [m];
    }

    /** handleServerMessage: a state change into 'queuing' runs cleanup; every other
        message only updates the view. */
    method HandleServerMessage(m: ServerMessage)
      modifies this
      ensures view == Reduced(old(view), m) && sent == old(sent)
      ensures EndsRace(m) ==> socket.None? && connectionState == Disconnected
      ensures !EndsRace(m) ==> socket == old(socket) && connectionState == old(connectionState) && closes == old(closes)
    {
      if m.payload.None? {
        return;
      }
      var p := m.payload.value;
      match m.kind {
        case StateChange =>
          if p.state == Some(Queuing) {
            Cleanup();
            return;
          }
          view := view.(mainState := p.state, scramble := p.scramble,
                        results := if p.results.Some? then p.results.value else view.results,
                        peers := if p.peers.Some? then p.peers.value else view.peers);
        case PeerReady =>
          if Blank(p.peer) {
            return;
          }
          view := view.(peers := Put(view.peers, p.peer.value, Marked(view.peers, p.peer.value, true)));
        case PeerUnready =>
          if Blank(p.peer) {
            return;
          }
          view := view.(peers := Put(view.peers, p.peer.value, Marked(view.peers, p.peer.value, false)));
        case PeerDisconnected =>
          if Blank(p.peer) {
            return;
          }
          var newPeers := Remove(view.peers, p.peer.value);
          view := view.(error := Some("Peer " + p.peer.value + " disconnected"), peers := newPeers);
        case ResultsUpdate =>
          if p.results.None? {
            return;
          }
          view := view.(results := p.results.value);
        case ServerError =>
          if Blank(p.message) {
            return;
          }
          view := view.(error := p.message);
        case _ =>
      }
    }

    /** Calling an action sends its message when the socket is open; leaving the session
        also runs cleanup. */
    method Perform(a: Action)
      modifies this
      ensures sent == AfterSend(old(sent), old(socket), MessageFor(a))
      ensures a.LeaveSessionAction? ==> socket.None? && connectionState == Disconnected && view == Cleared
      ensures !a.LeaveSessionAction? ==> view == old(view) && socket == old(socket) && connectionState == old(connectionState)
    {
      SendMessage(MessageFor(a));
      if a.LeaveSessionAction? {
        Cleanup();
      }
    }
  }
}
