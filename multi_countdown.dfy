/** The countdown panel of a race (MultiCountdown.tsx): the message it shows, and the
    Space key that starts and cancels the countdown. */
module MultiCountdown {
  import opened Common
  import opened Text
  import opened Records

  const UnreadyStatus := "unready"

  /** `values.filter(status => status === 'unready')`. */
  function Unready(values: seq<string>): (u: seq<string>)
    ensures |u| <= |values|
    ensures forall i :: 0 <= i < |u| ==> u[i] == UnreadyStatus
    ensures u == [] <==> forall i :: 0 <= i < |values| ==> values[i] != UnreadyStatus
  {
    if values == [] then []
    else
      var rest := Unready(values[1..]);
      assert forall i :: 0 <= i < |values| - 1 ==> values[1..][i] == values[i + 1];
      if values[0] == UnreadyStatus then [values[0]] + rest else rest
  }

  /** getMessage over the store's `countdownStarted` flag and `peers` record. */
  function Message(countdownStarted: bool, peers: seq<Entry<string>>): string {
    var unready := Unready(Values(peers));
    if countdownStarted then "Get ready to solve!"
    else if |unready| == 0 then "Hold space when ready"
    else Join(unready, ", ") + " " + (if |unready| == 1 then "is" else "are") + " unready"
  }

  /** Once the countdown has started the message ignores the peers. */
  lemma StartedMessage(peers: seq<Entry<string>>)
    ensures Message(true, peers) == "Get ready to solve!"
  {
  }

  /** With no peer marked 'unready' the user is asked to hold Space. */
  lemma AllReadyMessage(peers: seq<Entry<string>>)
    requires forall i :: 0 <= i < |peers| ==> peers[i].value != UnreadyStatus
    ensures Message(false, peers) == "Hold space when ready"
  {
  }

  /** One unready peer reads "unready is unready": the text lists the status strings,
      not the peers' names. */
  lemma OneUnreadyMessage(name: string, status: string)
    requires status == UnreadyStatus
    ensures Message(false, [Entry(name, status)]) == "unready is unready"
  {
    assert Values([Entry(name, status)]) == [status];
    assert Unready([status]) == [status];
  }

  /** Two unready peers read "unready, unready are unready". */
  lemma TwoUnreadyMessage(a: string, b: string)
    ensures Message(false, [Entry(a, UnreadyStatus), Entry(b, UnreadyStatus)]) == "unready, unready are unready"
  {
    var peers := [Entry(a, UnreadyStatus), Entry(b, UnreadyStatus)];
    assert Values(peers) == [UnreadyStatus, UnreadyStatus];
    assert Unready([UnreadyStatus, UnreadyStatus]) == [UnreadyStatus, UnreadyStatus] by {
      assert [UnreadyStatus, UnreadyStatus][1..] == [UnreadyStatus];
      assert Unready([UnreadyStatus]) == [UnreadyStatus];
    }
    var two := [UnreadyStatus, UnreadyStatus];
    assert two[1..] == [UnreadyStatus];
    assert Join(two, ", ") == UnreadyStatus + ", " + UnreadyStatus;
  }

  /** The message depends on the peers only through how many are unready: peers with the
      same count, whoever they are, give the same message. */
  lemma MessageCountsOnly(countdownStarted: bool, p: seq<Entry<string>>, q: seq<Entry<string>>)
    requires |Unready(Values(p))| == |Unready(Values(q))|
    ensures Message(countdownStarted, p) == Message(countdownStarted, q)
  {
    var u, v := Unready(Values(p)), Unready(Values(q));
    assert u == v;
  }

  // ---------------------------------------------------------------------------
  // The message as evidently intended: the names of the unready peers

  /** The keys of the peers whose status is 'unready', in entry order. */
  function UnreadyNames(peers: seq<Entry<string>>): (ns: seq<string>)
    ensures |ns| == |Unready(Values(peers))|
    ensures forall n :: n in ns <==> exists i :: 0 <= i < |peers| && peers[i].key == n && peers[i].value == UnreadyStatus
  {
    if peers == [] then []
    else
      var rest := UnreadyNames(peers[1..]);
      assert Values(peers)[1..] == Values(peers[1..]);
      assert forall i :: 0 < i < |peers| ==> peers[1..][i - 1] == peers[i];
      if peers[0].value == UnreadyStatus then [peers[0].key] + rest else rest
  }

  /** getMessage listing the unready peers by name. */
  function IntendedMessage(countdownStarted: bool, peers: seq<Entry<string>>): string {
    var names := UnreadyNames(peers);
    if countdownStarted then "Get ready to solve!"
    else if |names| == 0 then "Hold space when ready"
    else Join(names, ", ") + " " + (if |names| == 1 then "is" else "are") + " unready"
  }

  /** The corrected message differs from the one as written only in the listed names:
      the started and all-ready texts and the choice of "is" or "are" are the same. */
  lemma IntendedAgrees(countdownStarted: bool, peers: seq<Entry<string>>)
    ensures countdownStarted || Unready(Values(peers)) == [] ==>
      IntendedMessage(countdownStarted, peers) == Message(countdownStarted, peers)
    ensures |UnreadyNames(peers)| == |Unready(Values(peers))|
  {
  }

  /** With the correction one unready peer is named: "alice is unready". */
  lemma IntendedOneUnreadyMessage(name: string)
    ensures IntendedMessage(false, [Entry(name, UnreadyStatus)]) == name + " is unready"
  {
    var peers := [Entry(name, UnreadyStatus)];
    assert peers[1..] == [];
    assert UnreadyNames(peers) == [name];
  }

  datatype KeyEventKind = KeyDown | KeyUp

  datatype KeyEvent = KeyEvent(kind: KeyEventKind, code: string, repeat: bool)

  datatype Callback = StartCountdownCall | CancelCountdownCall

  /** The key handlers: a Space press that is not a repeat starts the countdown, and
      releasing Space cancels it. */
  function KeyCallback(e: KeyEvent): (c: Option<Callback>)
  {
    match e.kind
    case KeyDown => if e.code == "Space" && !e.repeat then Some(StartCountdownCall) else None
    case KeyUp => if e.code == "Space" then Some(CancelCountdownCall) else None
  }

  lemma KeyCallbackSpec(e: KeyEvent)
    ensures KeyCallback(e) == Some(StartCountdownCall) <==> e.kind == KeyDown && e.code == "Space" && !e.repeat
    ensures KeyCallback(e) == Some(CancelCountdownCall) <==> e.kind == KeyUp && e.code == "Space"
    ensures KeyCallback(e).None? <==> e.code != "Space" || (e.kind == KeyDown && e.repeat)
  {
  }
}
