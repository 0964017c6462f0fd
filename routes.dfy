/** The REST competition router of the competition service (routes.ts): two-person
    competitions kept in a map by id, created, read, made ready and given results
    through four handlers that answer with a status code and a body.

    Fresh ids, the clock and the scramble draws are parameters. A request body is
    reduced to the fields the handlers read. */
module Routes {
  import opened Common
  import opened Scrambler

  datatype CompetitionState = Scrambling | Solving | Complete

  datatype RaceResult = RaceResult(userId: string, time: int)

  /** A competition. The ready set is kept in insertion order without repeats, as a
      JavaScript Set is. */
  datatype Competition = Competition(
    id: string, participants: seq<string>, readyParticipants: seq<string>, scramble: string,
    state: CompetitionState, results: seq<RaceResult>, createdAt: int)

  /** The fields of a JSON request body the handlers read; absent fields are None. */
  datatype Body = Body(participants: Option<seq<string>>, userId: Option<string>, time: Option<int>)

  datatype ResponseBody = ErrorBody(error: string) | CompetitionBody(competition: Competition)

  datatype Response = Response(status: int, body: ResponseBody)

  const OK := 200
  const BadRequest := 400
  const Forbidden := 403
  const NotFound := 404

  /** What a handler leaves behind: the competitions map and the response. */
  datatype Outcome = Outcome(competitions: map<string, Competition>, response: Response)

  function Error(competitions: map<string, Competition>, status: int, text: string): Outcome {
    Outcome(competitions, Response(status, ErrorBody(text)))
  }

  /** `!body.userId`: absent or the empty string. */
  predicate MissingUser(body: Body) {
    body.userId.None? || body.userId.value == ""
  }

  /** `!body.time`: absent or 0. */
  predicate MissingTime(body: Body) {
    body.time.None? || body.time.value == 0
  }

  /** `set.add(u)` on an insertion-ordered set. */
  function Add(ready: seq<string>, u: string): (r: seq<string>)
    ensures u in r && (forall v :: v in r <==> v in ready || v == u)
    ensures u in ready ==> r == ready
    ensures u !in ready ==> |r| == |ready| + 1
  {
    if u in ready then ready else ready + [u]
  }

  predicate NoRepeats(s: seq<string>) {
    forall i, j :: 0 <= i < j < |s| ==> s[i] != s[j]
  }

  predicate Submitted(results: seq<RaceResult>, u: string) {
    exists i :: 0 <= i < |results| && results[i].userId == u
  }

  // ---------------------------------------------------------------------------
  // The handlers

  /** The competition POST /comp creates. */
  function NewCompetition(id: string, participants: seq<string>, draws: seq<Draw>, now: int): Competition
    requires ValidDraws(draws)
  {
    Competition(id, participants, [], GenerateScramble(draws), Scrambling, [], now)
  }

  /** POST /comp */
  function Create(competitions: map<string, Competition>, body: Body, id: string, draws: seq<Draw>, now: int): Outcome
    requires ValidDraws(draws)
  {
    if body.participants.None? || |body.participants.value| != 2 then
      Error(competitions, BadRequest, "Exactly 2 participants required")
    else
      var c := NewCompetition(id, body.participants.value, draws, now);
      Outcome(competitions[id := c], Response(OK, CompetitionBody(c)))
  }

  /** GET /comp/:id */
  function Get(competitions: map<string, Competition>, id: string): (r: Response)
    ensures id !in competitions <==> r.status == NotFound
    ensures id !in competitions ==> r.body.ErrorBody?
    ensures id in competitions ==> r.status == OK && r.body == CompetitionBody(competitions[id])
  {
    if id !in competitions then Response(NotFound, ErrorBody("competition not found"))
    else Response(OK, CompetitionBody(competitions[id]))
  }

  /** A user is marked ready: the state is "solving" once as many users are ready as
      there are participants, and "scrambling" otherwise. */
  function MarkReady(c: Competition, u: string): Competition {
    var ready := Add(c.readyParticipants, u);
    c.(readyParticipants := ready, state := if |ready| == |c.participants| then Solving else Scrambling)
  }

  /** POST /comp/:id/ready, as written: the participant check refuses participants. */
  function Ready(competitions: map<string, Competition>, id: string, body: Body): Outcome {
    if id !in competitions then Error(competitions, NotFound, "competition not found")
    else if MissingUser(body) then Error(competitions, BadRequest, "userId required")
    else if competitions[id].state != Scrambling then Error(competitions, BadRequest, "competition not in scramble state!")
    else if body.userId.value in competitions[id].participants then Error(competitions, Forbidden, "User not in competition")
    else
      var c := MarkReady(competitions[id], body.userId.value);
      Outcome(competitions[id := c], Response(OK, CompetitionBody(c)))
  }

  /** POST /comp/:id/ready with the participant check the error text describes: only
      participants may be marked ready. */
  function ReadyIntended(competitions: map<string, Competition>, id: string, body: Body): Outcome {
    if id !in competitions then Error(competitions, NotFound, "competition not found")
    else if MissingUser(body) then Error(competitions, BadRequest, "userId required")
    else if competitions[id].state != Scrambling then Error(competitions, BadRequest, "competition not in scramble state!")
    else if body.userId.value !in competitions[id].participants then Error(competitions, Forbidden, "User not in competition")
    else
      var c := MarkReady(competitions[id], body.userId.value);
      Outcome(competitions[id := c], Response(OK, CompetitionBody(c)))
  }

  /** A result is recorded: appended, and the competition is "complete" at two results. */
  function Record(c: Competition, u: string, time: int): Competition {
    var results := c.results + [RaceResult(u, time)];
    c.(results := results, state := if |results| == 2 then Complete else c.state)
  }

  /** POST /comp/:id/results */
  function SubmitResult(competitions: map<string, Competition>, id: string, body: Body): Outcome {
    if id !in competitions then Error(competitions, NotFound, "Competition not found")
    else if MissingUser(body) || MissingTime(body) then Error(competitions, BadRequest, "userId and time required")
    else if competitions[id].state != Solving then Error(competitions, BadRequest, "Competition must be in solving state!")
    else if body.userId.value !in competitions[id].participants then Error(competitions, Forbidden, "User not in competition")
    else if Submitted(competitions[id].results, body.userId.value) then Error(competitions, BadRequest, "User already submitted time!")
    else
      var c := Record(competitions[id], body.userId.value, body.time.value);
      Outcome(competitions[id := c], Response(OK, CompetitionBody(c)))
  }

  // ---------------------------------------------------------------------------
  // Properties

  /** POST /comp answers 400 exactly when there are not exactly two participants, and
      then stores nothing; otherwise it stores a fresh competition in "scrambling" with
      nobody ready and no results under the new id, and returns it. */
  lemma CreateSpec(competitions: map<string, Competition>, body: Body, id: string, draws: seq<Draw>, now: int)
    requires ValidDraws(draws)
    ensures var o := Create(competitions, body, id, draws, now);
      (o.response.status == BadRequest <==> body.participants.None? || |body.participants.value| != 2) &&
      (o.response.status == BadRequest ==> o.competitions == competitions) &&
      (o.response.status != BadRequest ==>
        o.response.status == OK &&
        o.competitions == competitions[id := o.response.body.competition] &&
        o.response.body.competition.participants == body.participants.value &&
        o.response.body.competition.state == Scrambling &&
        o.response.body.competition.readyParticipants == [] &&
        o.response.body.competition.results == [] &&
        o.response.body.competition.id == id)
  {
  }

  /** Every failed ready request leaves the competitions as they were, and the checks
      come in order: unknown id, missing user, wrong state, then the participant check. */
  lemma ReadyErrors(competitions: map<string, Competition>, id: string, body: Body)
    ensures var o := Ready(competitions, id, body);
      (o.response.status != OK ==> o.competitions == competitions) &&
      (id !in competitions ==> o.response.status == NotFound) &&
      (id in competitions && MissingUser(body) ==> o.response.status == BadRequest) &&
      (id in competitions && !MissingUser(body) && competitions[id].state != Scrambling ==> o.response.status == BadRequest) &&
      (id in competitions && !MissingUser(body) && competitions[id].state == Scrambling ==>
        (o.response.status == Forbidden <==> body.userId.value in competitions[id].participants))
  {
  }

  /** A successful ready adds the user to the ready set, and the competition is then
      "solving" exactly when as many users are ready as there are participants. */
  lemma ReadySuccess(competitions: map<string, Competition>, id: string, body: Body)
    requires Ready(competitions, id, body).response.status == OK
    ensures id in competitions && !MissingUser(body)
    ensures var c := competitions[id]; var u := body.userId.value;
      var o := Ready(competitions, id, body); var c' := o.competitions[id];
      o.competitions == competitions[id := c'] &&
      (forall v :: v in c'.readyParticipants <==> v in c.readyParticipants || v == u) &&
      (c'.state == Solving <==> |c'.readyParticipants| == |c.participants|) &&
      (c'.state != Solving ==> c'.state == Scrambling) &&
      c'.results == c.results && c'.participants == c.participants
  {
  }

  /** Marking the same user ready twice is the same as marking them once. */
  lemma MarkReadyIdempotent(c: Competition, u: string)
    ensures MarkReady(MarkReady(c, u), u) == MarkReady(c, u)
  {
  }

  /** As written, a participant is never marked ready: their request fails and changes
      nothing. */
  lemma ParticipantCannotReady(competitions: map<string, Competition>, id: string, body: Body)
    requires id in competitions && !MissingUser(body) && body.userId.value in competitions[id].participants
    ensures var o := Ready(competitions, id, body);
      o.response.status != OK && o.competitions == competitions
  {
  }

  /** So a competition whose two participants both ask to be ready stays in
      "scrambling" with nobody ready. */
  lemma ParticipantsStayScrambling(a: string, b: string, id: string, draws: seq<Draw>, now: int)
    requires ValidDraws(draws)
    ensures var c := NewCompetition(id, [a, b], draws, now);
      var m := map[id := c];
      var o1 := Ready(m, id, Body(None, Some(a), None));
      var o2 := Ready(o1.competitions, id, Body(None, Some(b), None));
      o1.response.status != OK && o2.response.status != OK &&
      o2.competitions[id].state == Scrambling && o2.competitions[id].readyParticipants == []
  {
    var c := NewCompetition(id, [a, b], draws, now);
    assert a in c.participants && b in c.participants;
  }

  /** With the corrected check, only participants are marked ready, and once both
      participants have asked the competition is "solving". */
  lemma IntendedReadySpec(competitions: map<string, Competition>, id: string, body: Body)
    requires id in competitions && !MissingUser(body) && competitions[id].state == Scrambling
    ensures var o := ReadyIntended(competitions, id, body);
      (o.response.status == OK <==> body.userId.value in competitions[id].participants) &&
      (o.response.status != OK ==> o.response.status == Forbidden && o.competitions == competitions)
  {
  }

  lemma IntendedParticipantsStartSolving(a: string, b: string, id: string, draws: seq<Draw>, now: int)
    requires ValidDraws(draws) && a != "" && b != "" && a != b
    ensures var c := NewCompetition(id, [a, b], draws, now);
      var m := map[id := c];
      var o1 := ReadyIntended(m, id, Body(None, Some(a), None));
      var o2 := ReadyIntended(o1.competitions, id, Body(None, Some(b), None));
      o1.response.status == OK && o1.competitions[id].state == Scrambling &&
      o2.response.status == OK && o2.competitions[id].state == Solving &&
      o2.competitions[id].readyParticipants == [a, b]
  {
    var c := NewCompetition(id, [a, b], draws, now);
    assert a in c.participants;
    var c1 := MarkReady(c, a);
    assert c1.readyParticipants == [a];
    assert b in c1.participants && b !in c1.readyParticipants;
  }

  /** The results checks, in order: unknown id, missing user or falsy time (so a time of
      0 is refused), wrong state, not a participant, already submitted; each failure
      leaves the competitions as they were. */
  lemma ResultErrors(competitions: map<string, Competition>, id: string, body: Body)
    ensures var o := SubmitResult(competitions, id, body);
      (o.response.status != OK ==> o.competitions == competitions) &&
      (id !in competitions ==> o.response.status == NotFound) &&
      (id in competitions && (MissingUser(body) || MissingTime(body)) ==> o.response.status == BadRequest) &&
      (id in competitions && !MissingUser(body) && !MissingTime(body) ==>
        var c := competitions[id]; var u := body.userId.value;
        (c.state != Solving ==> o.response.status == BadRequest) &&
        (c.state == Solving && u !in c.participants ==> o.response.status == Forbidden) &&
        (c.state == Solving && u in c.participants && Submitted(c.results, u) ==> o.response.status == BadRequest) &&
        (o.response.status == OK <==> c.state == Solving && u in c.participants && !Submitted(c.results, u)))
  {
  }

  lemma ZeroTimeRefused(competitions: map<string, Competition>, id: string, u: string)
    requires id in competitions
    ensures SubmitResult(competitions, id, Body(None, Some(u), Some(0))).response.status == BadRequest
  {
  }

  /** A successful submission appends the result, and the competition becomes
      "complete" exactly when it then has two results. */
  lemma ResultSuccess(competitions: map<string, Competition>, id: string, body: Body)
    requires SubmitResult(competitions, id, body).response.status == OK
    ensures id in competitions && !MissingUser(body) && !MissingTime(body)
    ensures var c := competitions[id]; var o := SubmitResult(competitions, id, body); var c' := o.competitions[id];
      o.competitions == competitions[id := c'] &&
      c'.results == c.results + [RaceResult(body.userId.value, body.time.value)] &&
      (c'.state == Complete <==> |c'.results| == 2) &&
      (c'.state != Complete ==> c'.state == Solving)
  {
  }

  // ---------------------------------------------------------------------------
  // The invariant of a stored competition

  /** Two participants; at most that many ready users, without repeats; results only
      from participants, at most one each; and the state agrees with the counts. */
  ghost predicate WellFormed(c: Competition) {
    |c.participants| == 2 &&
    NoRepeats(c.readyParticipants) && |c.readyParticipants| <= |c.participants| &&
    (forall i :: 0 <= i < |c.results| ==> c.results[i].userId in c.participants) &&
    (forall i, j :: 0 <= i < j < |c.results| ==> c.results[i].userId != c.results[j].userId) &&
    (c.state == Scrambling ==> c.results == [] && |c.readyParticipants| < |c.participants|) &&
    (c.state == Solving ==> |c.results| < 2 && |c.readyParticipants| == |c.participants|) &&
    (c.state == Complete <==> |c.results| == 2)
  }

  ghost predicate Invariant(competitions: map<string, Competition>) {
    forall id :: id in competitions ==> WellFormed(competitions[id])
  }

  lemma AddKeepsNoRepeats(ready: seq<string>, u: string)
    requires NoRepeats(ready)
    ensures NoRepeats(Add(ready, u))
  {
  }

  lemma MarkReadyWellFormed(c: Competition, u: string)
    requires WellFormed(c) && c.state == Scrambling
    ensures WellFormed(MarkReady(c, u))
  {
    AddKeepsNoRepeats(c.readyParticipants, u);
  }

  lemma RecordWellFormed(c: Competition, u: string, time: int)
    requires WellFormed(c) && c.state == Solving && u in c.participants && !Submitted(c.results, u)
    ensures WellFormed(Record(c, u, time))
  {
    var c' := Record(c, u, time);
    forall i, j | 0 <= i < j < |c'.results| ensures c'.results[i].userId != c'.results[j].userId {
      if j == |c.results| {
        assert c'.results[i] == c.results[i];
      }
    }
  }

  lemma InvariantCreate(competitions: map<string, Competition>, body: Body, id: string, draws: seq<Draw>, now: int)
    requires Invariant(competitions) && ValidDraws(draws)
    ensures Invariant(Create(competitions, body, id, draws, now).competitions)
  {
  }

  lemma InvariantReady(competitions: map<string, Competition>, id: string, body: Body)
    requires Invariant(competitions)
    ensures Invariant(Ready(competitions, id, body).competitions)
  {
    if Ready(competitions, id, body).response.status == OK {
      MarkReadyWellFormed(competitions[id], body.userId.value);
    }
  }

  lemma InvariantSubmit(competitions: map<string, Competition>, id: string, body: Body)
    requires Invariant(competitions)
    ensures Invariant(SubmitResult(competitions, id, body).competitions)
  {
    if SubmitResult(competitions, id, body).response.status == OK {
      RecordWellFormed(competitions[id], body.userId.value, body.time.value);
    }
  }

  // ---------------------------------------------------------------------------
  // The router

  class CompetitionRouter {
    var competitions: map<string, Competition>

    constructor ()
      ensures competitions == map[]
    {
      competitions := map[];
    }

    method PostComp(body: Body, id: string, draws: seq<Draw>, now: int) returns (response: Response)
      requires ValidDraws(draws)
      modifies this
      ensures Outcome(competitions, response) == Create(old(competitions), body, id, draws, now)
    {
      if body.participants.None? || |body.participants.value| != 2 {
        return Response(BadRequest, ErrorBody("Exactly 2 participants required"));
      }
      var competition := Competition(id, body.participants.value, [], GenerateScramble(draws), Scrambling, [], now);
      competitions := competitions[competition.id := competition];
      response := Response(OK, CompetitionBody(competition));
    }

    method GetComp(id: string) returns (response: Response)
      ensures response == Get(competitions, id)
    {
      if id !in competitions {
        return Response(NotFound, ErrorBody("competition not found"));
      }
      response := Response(OK, CompetitionBody(competitions[id]));
    }

    method PostReady(id: string, body: Body) returns (response: Response)
      modifies this
      ensures Outcome(competitions, response) == Ready(old(competitions), id, body)
    {
      if id !in competitions {
        return Response(NotFound, ErrorBody("competition not found"));
      }
      var competition := competitions[id];
      if MissingUser(body) {
        return Response(BadRequest, ErrorBody("userId required"));
      }
      if competition.state != Scrambling {
        return Response(BadRequest, ErrorBody("competition not in scramble state!"));
      }
      if body.userId.value in competition.participants {
        return Response(Forbidden, ErrorBody("User not in competition"));
      }
      competition := competition.(readyParticipants := Add(competition.readyParticipants, body.userId.value));
      if |competition.readyParticipants| == |competition.participants| {
        competition := competition.(state := Solving);
      } else {
        competition := competition.(state := Scrambling);
      }
      competitions := competitions[id := competition];
      response := Response(OK, CompetitionBody(competition));
    }

    method PostResults(id: string, body: Body) returns (response: Response)
      modifies this
      ensures Outcome(competitions, response) == SubmitResult(old(competitions), id, body)
    {
      if id !in competitions {
        return Response(NotFound, ErrorBody("Competition not found"));
      }
      var competition := competitions[id];
      if MissingUser(body) || MissingTime(body) {
        return Response(BadRequest, ErrorBody("userId and time required"));
      }
      if competition.state != Solving {
        return Response(BadRequest, ErrorBody("Competition must be in solving state!"));
      }
      if body.userId.value !in competition.participants {
        return Response(Forbidden, ErrorBody("User not in competition"));
      }
      var i := 0;
      while i < |competition.results|
        invariant 0 <= i <= |competition.results|
        invariant forall k :: 0 <= k < i ==> competition.results[k].userId != body.userId.value
      {
        if competition.results[i].userId == body.userId.value {
          return Response(BadRequest, ErrorBody("User already submitted time!"));
        }
        i := i + 1;
      }
      competition := competition.(results := competition.results + [RaceResult(body.userId.value, body.time.value)]);
      if |competition.results| == 2 {
        competition := competition.(state := Complete);
      }
      competitions := competitions[id := competition];
      response := Response(OK, CompetitionBody(competition));
    }
  }
}
