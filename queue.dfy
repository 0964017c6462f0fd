/** Skill-based matchmaking queue of the competition service (speedcube_queue.ts).

    Every cube type has an ordered queue of users, oldest first. A newcomer is matched
    at once with a queued user whose average solve time is within 5000 ms; otherwise it
    is appended. A periodic sweep widens the allowed gap with the time a user has waited
    and pairs users off. The clock is a parameter (`now`), the "match" events go to the
    `matches` log, and the periodic timer is the explicit method `Tick`. */
module SpeedcubeQueue {
  import opened Common

  datatype CubeType = ThreeByThree | TwoByTwo

  datatype QueueUser = QueueUser(username: string, avgSolveTime: int, queuedAt: int)

  datatype QueueMatch = QueueMatch(user1: string, user2: string, cubeType: CubeType, maxQueueTime: int)

  /** A JavaScript number that may be Infinity. */
  datatype Bound = Finite(n: int) | Unbounded

  /** x < b */
  predicate Below(x: int, b: Bound) {
    b.Unbounded? || x < b.n
  }

  /** !(x > b) */
  predicate Within(x: int, b: Bound) {
    b.Unbounded? || x <= b.n
  }

  /** a <= b */
  predicate AtMost(a: Bound, b: Bound) {
    b.Unbounded? || (a.Finite? && a.n <= b.n)
  }

  // ---------------------------------------------------------------------------
  // Matchmaking levels

  datatype TimeDiff = TimeDiff(maxWaitTime: Bound, maxDiff: Bound)

  /** TIME_DIFFS: the wait-time levels and the solve-time gap each one allows. */
  const TimeDiffs: seq<TimeDiff> := [
    TimeDiff(Finite(10000), Finite(5000)),
    TimeDiff(Finite(20000), Finite(10000)),
    TimeDiff(Unbounded, Unbounded)
  ]

  /** The three levels as documented beside the table: up to 10 s of waiting allows a
      5 s gap, up to 20 s a 10 s gap, and after that any gap. */
  function MaxTimeDiff(waitTime: int): Bound {
    if waitTime < 10000 then Finite(5000)
    else if waitTime < 20000 then Finite(10000)
    else Unbounded
  }

  /** getMaxTimeDiff: the first level whose maxWaitTime exceeds the wait. */
  method GetMaxTimeDiff(waitTime: int) returns (r: Bound)
    ensures r == MaxTimeDiff(waitTime)
  {
    var i := 0;
    while i < |TimeDiffs|
      invariant 0 <= i <= |TimeDiffs|
      invariant i >= 1 ==> waitTime >= 10000
      invariant i >= 2 ==> waitTime >= 20000
    {
      if Below(waitTime, TimeDiffs[i].maxWaitTime) {
        return TimeDiffs[i].maxDiff;
      }
      i := i + 1;
    }
    return Unbounded;
  }

  /** Waiting longer never narrows the allowed gap. */
  lemma MaxTimeDiffMonotone(w1: int, w2: int)
    requires w1 <= w2
    ensures AtMost(MaxTimeDiff(w1), MaxTimeDiff(w2))
  {
  }

  // ---------------------------------------------------------------------------
  // Queues as sequences

  function Names(q: seq<QueueUser>): set<string> {
    set u | u in q :: u.username
  }

  /** No username occurs twice in a queue. */
  predicate UniqueNames(q: seq<QueueUser>) {
    forall i, j :: 0 <= i < j < |q| ==> q[i].username != q[j].username
  }

  /** Array.prototype.findIndex on the username: the first position, or -1. */
  function FindIndex(q: seq<QueueUser>, name: string): (k: int)
    ensures -1 <= k < |q|
    ensures k >= 0 ==> q[k].username == name && forall j :: 0 <= j < k ==> q[j].username != name
    ensures k == -1 ==> forall j :: 0 <= j < |q| ==> q[j].username != name
  {
    if |q| == 0 then -1
    else if q[0].username == name then 0
    else
      var k := FindIndex(q[1..], name);
      if k == -1 then -1 else k + 1
  }

  /** findIndex reports -1 exactly for a name that is not queued. */
  lemma FindIndexNames(q: seq<QueueUser>, name: string)
    ensures FindIndex(q, name) == -1 <==> name !in Names(q)
  {
    var k := FindIndex(q, name);
    if k >= 0 {
      assert q[k] in q;
    } else {
      forall u | u in q ensures u.username != name {
        var j :| 0 <= j < |q| && q[j] == u;
      }
    }
  }

  /** findIndex followed by splice(index, 1) when found. */
  function RemoveFirst(q: seq<QueueUser>, name: string): (r: seq<QueueUser>)
    ensures |r| <= |q|
  {
    var k := FindIndex(q, name);
    if k == -1 then q else q[..k] + q[k + 1..]
  }

  /** The queue without the users whose names are in `drop`, order kept. */
  function Without(q: seq<QueueUser>, drop: set<string>): (r: seq<QueueUser>)
  {
    if |q| == 0 then []
    else (if q[0].username in drop then [] else [q[0]]) + Without(q[1..], drop)
  }

  lemma NamesAppend(a: seq<QueueUser>, b: seq<QueueUser>)
    ensures Names(a + b) == Names(a) + Names(b)
  {
    forall x | x in Names(a + b) ensures x in Names(a) + Names(b) {
      var u :| u in a + b && u.username == x;
    }
    forall x | x in Names(a) + Names(b) ensures x in Names(a + b) {
      if x in Names(a) {
        var u :| u in a && u.username == x;
        assert u in a + b;
      } else {
        var u :| u in b && u.username == x;
        assert u in a + b;
      }
    }
  }

  lemma NamesCons(q: seq<QueueUser>)
    requires |q| > 0
    ensures Names(q) == {q[0].username} + Names(q[1..])
  {
    assert q == [q[0]] + q[1..];
    NamesAppend([q[0]], q[1..]);
    assert Names([q[0]]) == {q[0].username};
  }

  /** A queue without repeated names: its tail has none either, and does not hold its head's name. */
  lemma UniqueTail(q: seq<QueueUser>)
    requires UniqueNames(q) && |q| > 0
    ensures UniqueNames(q[1..]) && q[0].username !in Names(q[1..])
  {
    forall u | u in q[1..] ensures u.username != q[0].username {
      var j :| 0 <= j < |q[1..]| && q[1..][j] == u;
      assert q[j + 1] == u;
    }
  }

  lemma {:induction false} WithoutNames(q: seq<QueueUser>, drop: set<string>)
    ensures Names(Without(q, drop)) == Names(q) - drop
    ensures forall u :: u in Without(q, drop) ==> u in q
    decreases |q|
  {
    if |q| > 0 {
      WithoutNames(q[1..], drop);
      var h := if q[0].username in drop then [] else [q[0]];
      var t := Without(q[1..], drop);
      assert Without(q, drop) == h + t;
      NamesAppend(h, t);
      NamesCons(q);
      assert Names(h) == if q[0].username in drop then {} else {q[0].username};
      forall u | u in h + t ensures u in q {
        if u in t {
          assert u in q[1..];
        }
      }
    }
  }

  lemma {:induction false} WithoutUnique(q: seq<QueueUser>, drop: set<string>)
    requires UniqueNames(q)
    ensures UniqueNames(Without(q, drop))
    decreases |q|
  {
    if |q| > 0 {
      UniqueTail(q);
      WithoutUnique(q[1..], drop);
      WithoutNames(q[1..], drop);
      var t := Without(q[1..], drop);
      if q[0].username !in drop {
        forall j | 0 <= j < |t| ensures t[j].username != q[0].username {
          assert t[j] in t;
        }
        var r := [q[0]] + t;
        forall a, b | 0 <= a < b < |r| ensures r[a].username != r[b].username {
          if a > 0 {
            assert r[a] == t[a - 1] && r[b] == t[b - 1];
          }
        }
      }
    }
  }

  /** Dropping names that do not occur changes nothing. */
  lemma {:induction false} WithoutNoop(q: seq<QueueUser>, drop: set<string>)
    requires Names(q) !! drop
    ensures Without(q, drop) == q
    decreases |q|
  {
    if |q| > 0 {
      NamesCons(q);
      WithoutNoop(q[1..], drop);
    }
  }

  lemma {:induction false} WithoutWithout(q: seq<QueueUser>, a: set<string>, b: set<string>)
    ensures Without(Without(q, a), b) == Without(q, a + b)
    decreases |q|
  {
    if |q| > 0 {
      WithoutWithout(q[1..], a, b);
      var h := if q[0].username in a then [] else [q[0]];
      assert Without(q, a) == h + Without(q[1..], a);
      WithoutAppend(h, Without(q[1..], a), b);
    }
  }

  lemma {:induction false} WithoutAppend(p: seq<QueueUser>, q: seq<QueueUser>, drop: set<string>)
    ensures Without(p + q, drop) == Without(p, drop) + Without(q, drop)
    decreases |p|
  {
    if |p| > 0 {
      assert (p + q)[1..] == p[1..] + q;
      WithoutAppend(p[1..], q, drop);
    } else {
      assert p + q == q;
    }
  }

  lemma RemoveFirstCons(q: seq<QueueUser>, name: string)
    requires |q| > 0 && q[0].username != name
    ensures RemoveFirst(q, name) == [q[0]] + RemoveFirst(q[1..], name)
  {
    var k := FindIndex(q[1..], name);
    if k != -1 {
      assert FindIndex(q, name) == k + 1;
      assert q[..k + 1] == [q[0]] + q[1..][..k];
      assert q[k + 2..] == q[1..][k + 1..];
    }
  }

  /** In a queue without repeated names, removing the first entry of a name removes the
      name altogether and keeps everyone else in order. */
  lemma {:induction false} RemoveFirstUnique(q: seq<QueueUser>, name: string)
    requires UniqueNames(q)
    ensures RemoveFirst(q, name) == Without(q, {name})
    decreases |q|
  {
    if |q| > 0 {
      UniqueTail(q);
      if q[0].username == name {
        assert FindIndex(q, name) == 0;
        assert RemoveFirst(q, name) == q[1..];
        WithoutNoop(q[1..], {name});
      } else {
        RemoveFirstCons(q, name);
        RemoveFirstUnique(q[1..], name);
      }
    }
  }

  /** Removing two distinct names, as createMatch does. */
  lemma RemoveBoth(q: seq<QueueUser>, u: string, v: string)
    requires UniqueNames(q)
    ensures var r := RemoveFirst(RemoveFirst(q, u), v);
      r == Without(q, {u, v}) && UniqueNames(r) && Names(r) == Names(q) - {u, v}
  {
    RemoveFirstUnique(q, u);
    WithoutUnique(q, {u});
    RemoveFirstUnique(Without(q, {u}), v);
    WithoutWithout(q, {u}, {v});
    assert {u} + {v} == {u, v};
    WithoutUnique(q, {u, v});
    WithoutNames(q, {u, v});
  }

  /** removeFromQueue deletes only the first entry with the name and keeps the others in
      order; a name that is not queued leaves the queue as it is. */
  lemma RemoveFirstSpec(q: seq<QueueUser>, name: string)
    ensures name !in Names(q) ==> RemoveFirst(q, name) == q
    ensures name in Names(q) ==>
      exists k :: 0 <= k < |q| && q[k].username == name &&
        (forall j :: 0 <= j < k ==> q[j].username != name) &&
        RemoveFirst(q, name) == q[..k] + q[k + 1..]
  {
    FindIndexNames(q, name);
  }

  lemma AppendUnique(q: seq<QueueUser>, u: QueueUser)
    requires UniqueNames(q) && u.username !in Names(q)
    ensures UniqueNames(q + [u])
  {
    forall i | 0 <= i < |q| ensures q[i].username != u.username {
      assert q[i] in q;
    }
  }

  // ---------------------------------------------------------------------------
  // findBestMatch

  /** Not yet matched in this sweep and not the searching user. */
  predicate Eligible(user: QueueUser, other: QueueUser, matched: set<string>) {
    other.username !in matched && other.username != user.username
  }

  /** A user without an average (0) is matched with anyone. */
  predicate Shortcut(user: QueueUser, other: QueueUser) {
    user.avgSolveTime == 0 || other.avgSolveTime == 0
  }

  function Gap(user: QueueUser, other: QueueUser): nat {
    Abs(other.avgSolveTime - user.avgSolveTime)
  }

  /** The loop of findBestMatch from position i, with the best index and smallest gap
      found so far. */
  function ScanFrom(user: QueueUser, q: seq<QueueUser>, matched: set<string>, maxTimeDiff: Bound,
                    i: nat, best: Option<nat>, smallest: Bound): (r: Option<nat>)
    requires i <= |q|
    requires best.Some? ==> best.value < i
    ensures r.Some? ==> r.value < |q|
    decreases |q| - i
  {
    if i == |q| then best
    else if !Eligible(user, q[i], matched) then ScanFrom(user, q, matched, maxTimeDiff, i + 1, best, smallest)
    else if Shortcut(user, q[i]) then Some(i)
    else if !Within(Gap(user, q[i]), maxTimeDiff) then ScanFrom(user, q, matched, maxTimeDiff, i + 1, best, smallest)
    else if Below(Gap(user, q[i]), smallest) then ScanFrom(user, q, matched, maxTimeDiff, i + 1, Some(i), Finite(Gap(user, q[i])))
    else ScanFrom(user, q, matched, maxTimeDiff, i + 1, best, smallest)
  }

  /** The index of the user findBestMatch returns, if any. */
  function BestMatch(user: QueueUser, q: seq<QueueUser>, matched: set<string>, maxTimeDiff: Bound): (r: Option<nat>)
    ensures r.Some? ==> r.value < |q|
  {
    ScanFrom(user, q, matched, maxTimeDiff, 0, None, Unbounded)
  }

  ghost predicate NoShortcutBefore(user: QueueUser, q: seq<QueueUser>, matched: set<string>, n: nat)
    requires n <= |q|
  {
    forall j :: 0 <= j < n && Eligible(user, q[j], matched) ==> !Shortcut(user, q[j])
  }

  /** k is the first eligible user that takes the zero-average shortcut. */
  ghost predicate FirstShortcut(user: QueueUser, q: seq<QueueUser>, matched: set<string>, k: nat) {
    k < |q| && Eligible(user, q[k], matched) && Shortcut(user, q[k]) && NoShortcutBefore(user, q, matched, k)
  }

  /** An eligible user whose gap is within the allowed difference. */
  ghost predicate Candidate(user: QueueUser, q: seq<QueueUser>, matched: set<string>, maxTimeDiff: Bound, j: nat)
    requires j < |q|
  {
    Eligible(user, q[j], matched) && Within(Gap(user, q[j]), maxTimeDiff)
  }

  ghost predicate NoCandidateBefore(user: QueueUser, q: seq<QueueUser>, matched: set<string>, maxTimeDiff: Bound, n: nat)
    requires n <= |q|
  {
    forall j :: 0 <= j < n ==> !Candidate(user, q, matched, maxTimeDiff, j)
  }

  /** Among the first n users, k is a candidate with the strictly smallest gap of all
      earlier candidates and a gap no larger than any later one. */
  ghost predicate ClosestBefore(user: QueueUser, q: seq<QueueUser>, matched: set<string>, maxTimeDiff: Bound, k: nat, n: nat)
    requires n <= |q|
  {
    k < n && Candidate(user, q, matched, maxTimeDiff, k) &&
    forall j :: 0 <= j < n && Candidate(user, q, matched, maxTimeDiff, j) ==>
      Gap(user, q[k]) <= Gap(user, q[j]) && (j < k ==> Gap(user, q[k]) < Gap(user, q[j]))
  }

  lemma {:induction false} ScanFromSpec(user: QueueUser, q: seq<QueueUser>, matched: set<string>, maxTimeDiff: Bound,
                                        i: nat, best: Option<nat>, smallest: Bound)
    requires i <= |q|
    requires best.Some? ==> best.value < i
    requires NoShortcutBefore(user, q, matched, i)
    requires best.None? ==> smallest == Unbounded && NoCandidateBefore(user, q, matched, maxTimeDiff, i)
    requires best.Some? ==> ClosestBefore(user, q, matched, maxTimeDiff, best.value, i) &&
                            smallest == Finite(Gap(user, q[best.value]))
    ensures var r := ScanFrom(user, q, matched, maxTimeDiff, i, best, smallest);
      (r.None? ==> NoShortcutBefore(user, q, matched, |q|) && NoCandidateBefore(user, q, matched, maxTimeDiff, |q|)) &&
      (r.Some? ==> FirstShortcut(user, q, matched, r.value) ||
                   (NoShortcutBefore(user, q, matched, |q|) && ClosestBefore(user, q, matched, maxTimeDiff, r.value, |q|)))
    decreases |q| - i
  {
    if i < |q| {
      var g := Gap(user, q[i]);
      if !Eligible(user, q[i], matched) {
        ScanFromSpec(user, q, matched, maxTimeDiff, i + 1, best, smallest);
      } else if Shortcut(user, q[i]) {
      } else if !Within(g, maxTimeDiff) {
        ScanFromSpec(user, q, matched, maxTimeDiff, i + 1, best, smallest);
      } else if Below(g, smallest) {
        ScanFromSpec(user, q, matched, maxTimeDiff, i + 1, Some(i), Finite(g));
      } else {
        ScanFromSpec(user, q, matched, maxTimeDiff, i + 1, best, smallest);
      }
    }
  }

  /** What findBestMatch returns. A user of average 0 on either side makes the first
      eligible user in queue order the match, whatever the gap. Otherwise the match is the
      eligible user with a gap within the bound that is strictly smaller than every earlier
      one and no larger than any later one; there is none exactly when no eligible user
      is within the bound. The searching user and already-matched users are never returned. */
  lemma BestMatchSpec(user: QueueUser, q: seq<QueueUser>, matched: set<string>, maxTimeDiff: Bound)
    ensures var r := BestMatch(user, q, matched, maxTimeDiff);
      (r.None? <==> NoShortcutBefore(user, q, matched, |q|) && NoCandidateBefore(user, q, matched, maxTimeDiff, |q|)) &&
      (r.Some? ==> Eligible(user, q[r.value], matched)) &&
      (r.Some? && Shortcut(user, q[r.value]) ==> FirstShortcut(user, q, matched, r.value)) &&
      (r.Some? && !Shortcut(user, q[r.value]) ==>
         NoShortcutBefore(user, q, matched, |q|) && ClosestBefore(user, q, matched, maxTimeDiff, r.value, |q|))
  {
    ScanFromSpec(user, q, matched, maxTimeDiff, 0, None, Unbounded);
    var r := BestMatch(user, q, matched, maxTimeDiff);
    if r.Some? {
      assert Candidate(user, q, matched, maxTimeDiff, r.value) || Shortcut(user, q[r.value]);
    }
  }

  function AtIndex(q: seq<QueueUser>, k: Option<nat>): Option<QueueUser>
    requires k.Some? ==> k.value < |q|
  {
    if k.Some? then Some(q[k.value]) else None
  }

  /** findBestMatch: a linear scan that keeps the best candidate and its gap. */
  method FindBestMatch(user: QueueUser, queue: seq<QueueUser>, matched: set<string>, maxTimeDiff: Bound)
    returns (r: Option<QueueUser>)
    ensures r == AtIndex(queue, BestMatch(user, queue, matched, maxTimeDiff))
  {
    var bestMatch: Option<QueueUser> := None;
    ghost var bestIndex: Option<nat> := None;
    var smallestDiff := Unbounded;
    for i := 0 to |queue|
      invariant bestIndex.Some? ==> bestIndex.value < i
      invariant bestMatch == AtIndex(queue, bestIndex)
      invariant ScanFrom(user, queue, matched, maxTimeDiff, i, bestIndex, smallestDiff) ==
                BestMatch(user, queue, matched, maxTimeDiff)
    {
      var otherUser := queue[i];
      if otherUser.username in matched || otherUser.username == user.username {
        continue;
      }
      if user.avgSolveTime == 0 || otherUser.avgSolveTime == 0 {
        return Some(otherUser);
      }
      var timeDiff := Abs(otherUser.avgSolveTime - user.avgSolveTime);
      if !Within(timeDiff, maxTimeDiff) {
        continue;
      }
      if Below(timeDiff, smallestDiff) {
        bestMatch, bestIndex := Some(otherUser), Some(i);
        smallestDiff := Finite(timeDiff);
      }
    }
    return bestMatch;
  }

  // ---------------------------------------------------------------------------
  // addToQueue and the sweep as functions of the queue

  /** The queue and the emitted matches after addToQueue(user) on queue q. */
  function Enqueued(q: seq<QueueUser>, user: QueueUser, cubeType: CubeType): (seq<QueueUser>, seq<QueueMatch>)
  {
    var q0 := if FindIndex(q, user.username) != -1 then RemoveFirst(q, user.username) else q;
    var best := BestMatch(user, q0, {}, MaxTimeDiff(0));
    if best.Some? then
      var other := q0[best.value].username;
      (RemoveFirst(RemoveFirst(q0, user.username), other), [QueueMatch(user.username, other, cubeType, 0)])
    else
      (q0 + [user], [])
  }

  /** addToQueue keeps names unique. It either emits exactly one match, of the new user
      with a queued user, with max_queue_time 0, and leaves neither of them queued; or it
      emits nothing and the queue is the old one without the user's earlier entry, with
      the new entry at the end. It matches exactly when findBestMatch, at the allowance
      for a wait of 0, finds someone in the queue without the user's earlier entry, and the
      partner is the user it finds (so BestMatchSpec says who that is). */
  lemma EnqueuedSpec(q: seq<QueueUser>, user: QueueUser, cubeType: CubeType)
    requires UniqueNames(q)
    ensures var (rq, ms) := Enqueued(q, user, cubeType);
      var q0 := Without(q, {user.username});
      UniqueNames(rq) &&
      ((|ms| == 1 && ms[0].user1 == user.username && ms[0].user2 != user.username &&
        ms[0].user2 in Names(q) && ms[0].cubeType == cubeType && ms[0].maxQueueTime == 0 &&
        rq == Without(q, {user.username, ms[0].user2}) &&
        user.username !in Names(rq) && ms[0].user2 !in Names(rq)) ||
       (ms == [] && rq == q0 + [user]))
    ensures var (rq, ms) := Enqueued(q, user, cubeType);
      var q0 := Without(q, {user.username});
      var best := BestMatch(user, q0, {}, MaxTimeDiff(0));
      (|ms| == 1 <==> best.Some?) && (best.Some? ==> ms[0].user2 == q0[best.value].username)
  {
    var q0 := DroppedEarlier(q, user);
    var best := BestMatch(user, q0, {}, MaxTimeDiff(0));
    if best.Some? {
      EnqueuedMatched(q, q0, user, cubeType, best.value);
    } else {
      AppendUnique(q0, user);
    }
  }

  /** The queue without the user's earlier entry, however it was found. */
  lemma DroppedEarlier(q: seq<QueueUser>, user: QueueUser) returns (q0: seq<QueueUser>)
    requires UniqueNames(q)
    ensures q0 == Without(q, {user.username})
    ensures q0 == if FindIndex(q, user.username) != -1 then RemoveFirst(q, user.username) else q
    ensures UniqueNames(q0) && Names(q0) == Names(q) - {user.username}
  {
    RemoveFirstUnique(q, user.username);
    q0 := Without(q, {user.username});
    if FindIndex(q, user.username) == -1 {
      FindIndexNames(q, user.username);
      WithoutNoop(q, {user.username});
    }
    WithoutUnique(q, {user.username});
    WithoutNames(q, {user.username});
  }

  /** addToQueue when a partner is found at index k of the trimmed queue q0. */
  lemma EnqueuedMatched(q: seq<QueueUser>, q0: seq<QueueUser>, user: QueueUser, cubeType: CubeType, k: nat)
    requires UniqueNames(q) && q0 == Without(q, {user.username})
    requires UniqueNames(q0) && Names(q0) == Names(q) - {user.username}
    requires BestMatch(user, q0, {}, MaxTimeDiff(0)) == Some(k) && k < |q0|
    ensures var other := q0[k].username;
      var rq := RemoveFirst(RemoveFirst(q0, user.username), other);
      other != user.username && other in Names(q) && UniqueNames(rq) &&
      rq == Without(q, {user.username, other}) &&
      user.username !in Names(rq) && other !in Names(rq)
  {
    var other := q0[k].username;
    assert other in Names(q0) by { assert q0[k] in q0; }
    RemoveBoth(q0, user.username, other);
    WithoutWithout(q, {user.username}, {user.username, other});
    assert {user.username} + {user.username, other} == {user.username, other};
  }

  /** With one queued user and both averages non-zero, a newcomer is matched at once
      exactly when the two averages are at most 5000 ms apart (1 and 5001 match; 1 and
      5002 do not). */
  lemma ImmediateMatchBoundary(queued: QueueUser, user: QueueUser, cubeType: CubeType)
    requires queued.username != user.username
    requires queued.avgSolveTime != 0 && user.avgSolveTime != 0
    ensures Enqueued([queued], user, cubeType) ==
      if Gap(user, queued) <= 5000 then ([], [QueueMatch(user.username, queued.username, cubeType, 0)])
      else ([queued, user], [])
  {
    var q := [queued];
    var b := MaxTimeDiff(0);
    var g := Gap(user, queued);
    assert FindIndex(q, user.username) == -1;
    if g <= 5000 {
      assert ScanFrom(user, q, {}, b, 1, Some(0), Finite(g)) == Some(0);
      assert BestMatch(user, q, {}, b) == Some(0);
      assert RemoveFirst(q, user.username) == q;
      assert FindIndex(q, queued.username) == 0;
      assert RemoveFirst(q, queued.username) == [];
      assert Enqueued(q, user, cubeType).0 == [];
      assert Enqueued(q, user, cubeType).1 == [QueueMatch(user.username, queued.username, cubeType, 0)];
    } else {
      assert ScanFrom(user, q, {}, b, 1, None, Unbounded) == None;
      assert BestMatch(user, q, {}, b) == None;
      assert Enqueued(q, user, cubeType) == (q + [user], []);
      assert q + [user] == [queued, user];
    }
  }

  /** One step of the sweep, reading position i of the live queue. */
  function SweepFrom(q: seq<QueueUser>, i: nat, matched: set<string>, cubeType: CubeType, now: int)
    : (seq<QueueUser>, seq<QueueMatch>)
    decreases |q| - i
  {
    if i >= |q| then (q, [])
    else
      var user := q[i];
      if user.username in matched then SweepFrom(q, i + 1, matched, cubeType, now)
      else
        var waitTime := now - user.queuedAt;
        var best := BestMatch(user, q, matched, MaxTimeDiff(waitTime));
        if best.None? then SweepFrom(q, i + 1, matched, cubeType, now)
        else
          var other := q[best.value].username;
          var rest := SweepFrom(RemoveFirst(RemoveFirst(q, user.username), other), i + 1,
                                matched + {user.username, other}, cubeType, now);
          (rest.0, [QueueMatch(user.username, other, cubeType, waitTime)] + rest.1)
  }

  /** The queue and the emitted matches after one run of findMatches at time now. */
  function Sweep(q: seq<QueueUser>, cubeType: CubeType, now: int): (seq<QueueUser>, seq<QueueMatch>)
  {
    if |q| < 2 then (q, []) else SweepFrom(q, 0, {}, cubeType, now)
  }

  /** Both users of every match, in emission order. */
  function MatchedUsers(ms: seq<QueueMatch>): seq<string>
  {
    if |ms| == 0 then [] else [ms[0].user1, ms[0].user2] + MatchedUsers(ms[1..])
  }

  function MatchedSet(ms: seq<QueueMatch>): set<string> {
    set x | x in MatchedUsers(ms)
  }

  predicate NoDuplicates(s: seq<string>) {
    forall i, j :: 0 <= i < j < |s| ==> s[i] != s[j]
  }

  lemma MatchedCons(m: QueueMatch, ms: seq<QueueMatch>)
    requires m.user1 != m.user2 && m.user1 !in MatchedSet(ms) && m.user2 !in MatchedSet(ms)
    requires NoDuplicates(MatchedUsers(ms))
    ensures MatchedSet([m] + ms) == {m.user1, m.user2} + MatchedSet(ms)
    ensures NoDuplicates(MatchedUsers([m] + ms))
  {
    assert ([m] + ms)[1..] == ms;
    var all := MatchedUsers([m] + ms);
    var rest := MatchedUsers(ms);
    assert all == [m.user1, m.user2] + rest;
    forall a, b | 0 <= a < b < |all| ensures all[a] != all[b] {
      if b >= 2 {
        assert all[b] == rest[b - 2] && all[b] in rest;
        if a >= 2 {
          assert all[a] == rest[a - 2];
        }
      }
    }
  }

  /** A match of u and v in front of the rest of the sweep, which ran on the queue
      without u and v. */
  lemma SweepMatchStep(q: seq<QueueUser>, u: string, v: string, m: QueueMatch,
                       rq: seq<QueueUser>, ms: seq<QueueMatch>)
    requires UniqueNames(q) && u != v && u in Names(q) && v in Names(q)
    requires m.user1 == u && m.user2 == v
    requires var q' := RemoveFirst(RemoveFirst(q, u), v);
      q' == Without(q, {u, v}) && Names(q') == Names(q) - {u, v} &&
      NoDuplicates(MatchedUsers(ms)) && MatchedSet(ms) <= Names(q') && rq == Without(q', MatchedSet(ms))
    ensures NoDuplicates(MatchedUsers([m] + ms)) && MatchedSet([m] + ms) <= Names(q) &&
      rq == Without(q, MatchedSet([m] + ms))
  {
    MatchedCons(m, ms);
    WithoutWithout(q, {u, v}, MatchedSet(ms));
  }

  lemma {:induction false} SweepFromSpec(q: seq<QueueUser>, i: nat, matched: set<string>, cubeType: CubeType, now: int)
    requires UniqueNames(q)
    requires Names(q) !! matched
    ensures var (rq, ms) := SweepFrom(q, i, matched, cubeType, now);
      NoDuplicates(MatchedUsers(ms)) && MatchedSet(ms) <= Names(q) &&
      rq == Without(q, MatchedSet(ms)) &&
      forall m :: m in ms ==> m.cubeType == cubeType
    decreases |q| - i
  {
    if i >= |q| {
      assert MatchedSet([]) == {};
      WithoutNoop(q, {});
    } else {
      var user := q[i];
      assert user in q;
      var waitTime := now - user.queuedAt;
      var best := BestMatch(user, q, matched, MaxTimeDiff(waitTime));
      if best.None? {
        SweepFromSpec(q, i + 1, matched, cubeType, now);
      } else {
        BestMatchSpec(user, q, matched, MaxTimeDiff(waitTime));
        var u, v := user.username, q[best.value].username;
        assert v in Names(q) by { assert q[best.value] in q; }
        RemoveBoth(q, u, v);
        var q' := RemoveFirst(RemoveFirst(q, u), v);
        SweepFromSpec(q', i + 1, matched + {u, v}, cubeType, now);
        var rest := SweepFrom(q', i + 1, matched + {u, v}, cubeType, now);
        SweepMatchStep(q, u, v, QueueMatch(u, v, cubeType, waitTime), rest.0, rest.1);
      }
    }
  }

  /** One run of findMatches: with fewer than two users nothing happens; otherwise no user
      is in two matches, every matched user was queued, the two users of a match differ,
      and the queue afterwards is the old one without exactly the matched users. */
  lemma SweepSpec(q: seq<QueueUser>, cubeType: CubeType, now: int)
    requires UniqueNames(q)
    ensures |q| < 2 ==> Sweep(q, cubeType, now) == (q, [])
    ensures var (rq, ms) := Sweep(q, cubeType, now);
      NoDuplicates(MatchedUsers(ms)) && MatchedSet(ms) <= Names(q) &&
      rq == Without(q, MatchedSet(ms)) && UniqueNames(rq)
  {
    if |q| < 2 {
      WithoutNoop(q, {});
    } else {
      SweepFromSpec(q, 0, {}, cubeType, now);
    }
    var (rq, ms) := Sweep(q, cubeType, now);
    WithoutUnique(q, MatchedSet(ms));
  }

  /** A match findMatches may emit from queue q at time now: both users were queued, the
      recorded wait is the first user's, and unless one of them has no average their gap
      is within the allowance for that wait. */
  ghost predicate Allowed(q: seq<QueueUser>, m: QueueMatch, now: int) {
    exists a, b :: a in q && b in q && a.username == m.user1 && b.username == m.user2 &&
      m.maxQueueTime == now - a.queuedAt &&
      (Shortcut(a, b) || Within(Gap(a, b), MaxTimeDiff(m.maxQueueTime)))
  }

  lemma RemoveFirstIn(q: seq<QueueUser>, name: string, x: QueueUser)
    requires x in RemoveFirst(q, name)
    ensures x in q
  {
    var k := FindIndex(q, name);
    if k != -1 {
      var j :| 0 <= j < |q[..k] + q[k + 1..]| && (q[..k] + q[k + 1..])[j] == x;
      if j < k {
        assert q[j] == x;
      } else {
        assert q[j + 1] == x;
      }
    }
  }

  lemma {:induction false} SweepFromAllowed(q: seq<QueueUser>, i: nat, matched: set<string>, cubeType: CubeType, now: int)
    ensures forall m :: m in SweepFrom(q, i, matched, cubeType, now).1 ==> Allowed(q, m, now)
    decreases |q| - i
  {
    if i < |q| {
      var user := q[i];
      var waitTime := now - user.queuedAt;
      if user.username in matched || BestMatch(user, q, matched, MaxTimeDiff(waitTime)).None? {
        SweepFromAllowed(q, i + 1, matched, cubeType, now);
      } else {
        var k := BestMatch(user, q, matched, MaxTimeDiff(waitTime)).value;
        BestMatchSpec(user, q, matched, MaxTimeDiff(waitTime));
        var other := q[k];
        var q1 := RemoveFirst(q, user.username);
        var q2 := RemoveFirst(q1, other.username);
        var matched' := matched + {user.username, other.username};
        SweepFromAllowed(q2, i + 1, matched', cubeType, now);
        var rest := SweepFrom(q2, i + 1, matched', cubeType, now);
        var m0 := QueueMatch(user.username, other.username, cubeType, waitTime);
        assert user in q && other in q;
        assert Shortcut(user, other) || Candidate(user, q, matched, MaxTimeDiff(waitTime), k);
        assert Allowed(q, m0, now);
        forall m | m in rest.1 ensures Allowed(q, m, now) {
          var a, b :| a in q2 && b in q2 && a.username == m.user1 && b.username == m.user2 &&
            m.maxQueueTime == now - a.queuedAt &&
            (Shortcut(a, b) || Within(Gap(a, b), MaxTimeDiff(m.maxQueueTime)));
          RemoveFirstIn(q1, other.username, a);
          RemoveFirstIn(q, user.username, a);
          RemoveFirstIn(q1, other.username, b);
          RemoveFirstIn(q, user.username, b);
        }
        assert SweepFrom(q, i, matched, cubeType, now).1 == [m0] + rest.1;
      }
    }
  }

  /** Every match one run of findMatches emits pairs two queued users, records the first
      user's wait, and respects the allowance getMaxTimeDiff gives for that wait, unless
      one of the two has no average. */
  lemma SweepAllowed(q: seq<QueueUser>, cubeType: CubeType, now: int)
    ensures forall m :: m in Sweep(q, cubeType, now).1 ==> Allowed(q, m, now)
  {
    if |q| >= 2 {
      SweepFromAllowed(q, 0, {}, cubeType, now);
    }
  }

  /** The sweep on a queue of two users with non-zero averages: the first user is matched
      when the gap is within its own level, otherwise the second when the gap is within
      the second user's level, otherwise nobody. */
  lemma TwoUserSweep(u1: QueueUser, u2: QueueUser, cubeType: CubeType, now: int)
    requires u1.username != u2.username
    requires u1.avgSolveTime != 0 && u2.avgSolveTime != 0
    ensures var w1, w2 := now - u1.queuedAt, now - u2.queuedAt;
      Sweep([u1, u2], cubeType, now) ==
        if Within(Gap(u1, u2), MaxTimeDiff(w1)) then ([], [QueueMatch(u1.username, u2.username, cubeType, w1)])
        else if Within(Gap(u2, u1), MaxTimeDiff(w2)) then ([], [QueueMatch(u2.username, u1.username, cubeType, w2)])
        else ([u1, u2], [])
  {
    var q := [u1, u2];
    var w1, w2 := now - u1.queuedAt, now - u2.queuedAt;
    var b1, b2 := MaxTimeDiff(w1), MaxTimeDiff(w2);
    PairBestMatch(u1, u2, b1);
    PairBestMatch(u1, u2, b2);
    PairRemoved(u1, u2);
    var none: set<string> := {};
    if Within(Gap(u1, u2), b1) {
      var m := QueueMatch(u1.username, u2.username, cubeType, w1);
      var rest := SweepFrom(RemoveFirst(RemoveFirst(q, u1.username), u2.username), 1,
                            none + {u1.username, u2.username}, cubeType, now);
      assert rest == ([], []);
      assert rest.0 == [] && [m] + rest.1 == [m];
      assert SweepFrom(q, 0, none, cubeType, now) == (rest.0, [m] + rest.1);
      assert SweepFrom(q, 0, none, cubeType, now) == ([], [QueueMatch(u1.username, u2.username, cubeType, w1)]);
    } else if Within(Gap(u2, u1), b2) {
      var m := QueueMatch(u2.username, u1.username, cubeType, w2);
      var rest := SweepFrom(RemoveFirst(RemoveFirst(q, u2.username), u1.username), 2,
                            none + {u2.username, u1.username}, cubeType, now);
      assert rest == ([], []);
      assert rest.0 == [] && [m] + rest.1 == [m];
      assert SweepFrom(q, 1, none, cubeType, now) == (rest.0, [m] + rest.1);
      assert SweepFrom(q, 1, none, cubeType, now) == ([], [QueueMatch(u2.username, u1.username, cubeType, w2)]);
      assert SweepFrom(q, 0, none, cubeType, now) == SweepFrom(q, 1, none, cubeType, now);
    } else {
      assert SweepFrom(q, 2, none, cubeType, now) == (q, []);
      assert SweepFrom(q, 1, none, cubeType, now) == SweepFrom(q, 2, none, cubeType, now);
      assert SweepFrom(q, 0, none, cubeType, now) == SweepFrom(q, 1, none, cubeType, now);
    }
  }

  /** findBestMatch on a queue of two users with non-zero averages, from each side. */
  lemma PairBestMatch(u1: QueueUser, u2: QueueUser, b: Bound)
    requires u1.username != u2.username
    requires u1.avgSolveTime != 0 && u2.avgSolveTime != 0
    ensures BestMatch(u1, [u1, u2], {}, b) == if Within(Gap(u1, u2), b) then Some(1) else None
    ensures BestMatch(u2, [u1, u2], {}, b) == if Within(Gap(u2, u1), b) then Some(0) else None
  {
    var q := [u1, u2];
    var g1, g2 := Gap(u1, u2), Gap(u2, u1);
    assert ScanFrom(u1, q, {}, b, 0, None, Unbounded) == ScanFrom(u1, q, {}, b, 1, None, Unbounded);
    if Within(g1, b) {
      assert ScanFrom(u1, q, {}, b, 1, None, Unbounded) == ScanFrom(u1, q, {}, b, 2, Some(1), Finite(g1));
    } else {
      assert ScanFrom(u1, q, {}, b, 1, None, Unbounded) == ScanFrom(u1, q, {}, b, 2, None, Unbounded);
    }
    if Within(g2, b) {
      assert ScanFrom(u2, q, {}, b, 0, None, Unbounded) == ScanFrom(u2, q, {}, b, 1, Some(0), Finite(g2));
      assert ScanFrom(u2, q, {}, b, 1, Some(0), Finite(g2)) == ScanFrom(u2, q, {}, b, 2, Some(0), Finite(g2));
    } else {
      assert ScanFrom(u2, q, {}, b, 0, None, Unbounded) == ScanFrom(u2, q, {}, b, 1, None, Unbounded);
      assert ScanFrom(u2, q, {}, b, 1, None, Unbounded) == ScanFrom(u2, q, {}, b, 2, None, Unbounded);
    }
  }

  /** Matching the two users of a two-user queue, in either order, empties it. */
  lemma PairRemoved(u1: QueueUser, u2: QueueUser)
    requires u1.username != u2.username
    ensures RemoveFirst(RemoveFirst([u1, u2], u1.username), u2.username) == []
    ensures RemoveFirst(RemoveFirst([u1, u2], u2.username), u1.username) == []
  {
    assert FindIndex([u1, u2], u1.username) == 0;
    assert [u1, u2][..0] + [u1, u2][1..] == [u2];
    assert FindIndex([u2], u2.username) == 0;
    assert FindIndex([u1, u2], u2.username) == 1;
    assert [u1, u2][..1] + [u1, u2][2..] == [u1];
    assert FindIndex([u1], u1.username) == 0;
  }

  lemma EmptyNames(q: seq<QueueUser>)
    ensures Names(q) == {} ==> q == []
  {
    if q != [] {
      assert q[0] in q;
      assert q[0].username in Names(q);
    }
  }

  /** Level 2 of the sweep: a gap above 5000 ms is not matched while both users have waited
      less than 10 s, and a gap of at most 10000 ms is matched once the first user has
      waited 10 s. */
  lemma SweepLevelTwo(u1: QueueUser, u2: QueueUser, cubeType: CubeType, now: int)
    requires u1.username != u2.username
    requires u1.avgSolveTime != 0 && u2.avgSolveTime != 0
    requires 5000 < Gap(u1, u2)
    ensures now - u1.queuedAt < 10000 && now - u2.queuedAt < 10000 ==>
      Sweep([u1, u2], cubeType, now) == ([u1, u2], [])
    ensures Gap(u1, u2) <= 10000 && now - u1.queuedAt >= 10000 ==>
      Sweep([u1, u2], cubeType, now) == ([], [QueueMatch(u1.username, u2.username, cubeType, now - u1.queuedAt)])
  {
    TwoUserSweep(u1, u2, cubeType, now);
  }

  /** Level 3 of the sweep: a gap above 10000 ms is not matched while both users have
      waited less than 20 s, and any gap is matched once the first user has waited 20 s. */
  lemma SweepLevelThree(u1: QueueUser, u2: QueueUser, cubeType: CubeType, now: int)
    requires u1.username != u2.username
    requires u1.avgSolveTime != 0 && u2.avgSolveTime != 0
    requires 10000 < Gap(u1, u2)
    ensures now - u1.queuedAt < 20000 && now - u2.queuedAt < 20000 ==>
      Sweep([u1, u2], cubeType, now) == ([u1, u2], [])
    ensures now - u1.queuedAt >= 20000 ==>
      Sweep([u1, u2], cubeType, now) == ([], [QueueMatch(u1.username, u2.username, cubeType, now - u1.queuedAt)])
  {
    TwoUserSweep(u1, u2, cubeType, now);
  }

  // ---------------------------------------------------------------------------
  // The queue object

  /** One step of the sweep at a user who is matched: the rest of the sweep runs on the
      queue without the pair, from the next position. */
  lemma SweepTaken(q: seq<QueueUser>, i: nat, matched: set<string>, cubeType: CubeType, now: int)
    returns (rest: (seq<QueueUser>, seq<QueueMatch>))
    requires i < |q| && q[i].username !in matched
    requires BestMatch(q[i], q, matched, MaxTimeDiff(now - q[i].queuedAt)).Some?
    ensures var k := BestMatch(q[i], q, matched, MaxTimeDiff(now - q[i].queuedAt)).value;
      rest == SweepFrom(RemoveFirst(RemoveFirst(q, q[i].username), q[k].username), i + 1,
                        matched + {q[i].username, q[k].username}, cubeType, now) &&
      SweepFrom(q, i, matched, cubeType, now) ==
        (rest.0, [QueueMatch(q[i].username, q[k].username, cubeType, now - q[i].queuedAt)] + rest.1)
  {
    var k := BestMatch(q[i], q, matched, MaxTimeDiff(now - q[i].queuedAt)).value;
    rest := SweepFrom(RemoveFirst(RemoveFirst(q, q[i].username), q[k].username), i + 1,
                      matched + {q[i].username, q[k].username}, cubeType, now);
  }

  /** One step of the sweep at a user who is already matched or has no match. */
  lemma SweepSkipped(q: seq<QueueUser>, i: nat, matched: set<string>, cubeType: CubeType, now: int)
    requires i < |q|
    requires q[i].username in matched || BestMatch(q[i], q, matched, MaxTimeDiff(now - q[i].queuedAt)).None?
    ensures SweepFrom(q, i, matched, cubeType, now) == SweepFrom(q, i + 1, matched, cubeType, now)
  {
  }

  lemma AppendAssoc<T>(a: seq<T>, b: seq<T>, c: seq<T>)
    ensures (a + b) + c == a + (b + c)
  {
  }

  lemma UpdateTwice<K, V>(m: map<K, V>, k: K, a: V, b: V)
    ensures m[k := a][k := b] == m[k := b]
  {
  }

  lemma UpdateSame<K, V>(m: map<K, V>, k: K)
    requires k in m
    ensures m[k := m[k]] == m
  {
  }

  /** Every queue of the map is free of repeated names. */
  predicate AllUnique(qs: map<CubeType, seq<QueueUser>>) {
    forall ct :: ct in qs ==> UniqueNames(qs[ct])
  }

  lemma AllUniqueUpdate(qs: map<CubeType, seq<QueueUser>>, ct: CubeType, q: seq<QueueUser>)
    requires AllUnique(qs) && UniqueNames(q)
    ensures AllUnique(qs[ct := q])
  {
  }

  class Queue {
    var queues: map<CubeType, seq<QueueUser>>
    /** The "match" events emitted so far, oldest first. */
    var matches: seq<QueueMatch>

    ghost predicate Valid()
      reads this
    {
      ThreeByThree in queues && AllUnique(queues)
    }

    /** Only the 3x3 queue exists; the periodic sweep is `Tick`. */
    constructor ()
      ensures Valid()
      ensures queues == map[ThreeByThree := []] && matches == []
    {
      queues := map[ThreeByThree := []];
      matches := [];
    }

    /** getQueue: a copy of the queue, oldest entry first. */
    function GetQueue(cubeType: CubeType): (r: seq<QueueUser>)
      reads this
      requires Valid() && cubeType in queues
      ensures UniqueNames(r)
    {
      queues[cubeType]
    }

    function GetQueueLength(cubeType: CubeType): (n: nat)
      reads this
      requires Valid() && cubeType in queues
      ensures n == |GetQueue(cubeType)|
    {
      |queues[cubeType]|
    }

    method RemoveFromQueue(username: string, cubeType: CubeType)
      requires Valid() && cubeType in queues
      modifies this
      ensures Valid()
      ensures queues == old(queues)[cubeType := RemoveFirst(old(queues[cubeType]), username)]
      ensures queues[cubeType] == Without(old(queues[cubeType]), {username})
      ensures matches == old(matches)
    {
      RemoveFirstUnique(queues[cubeType], username);
      WithoutUnique(queues[cubeType], {username});
      var queue := queues[cubeType];
      var index := FindIndex(queue, username);
      if index != -1 {
        AllUniqueUpdate(queues, cubeType, queue[..index] + queue[index + 1..]);
        queues := queues[cubeType := queue[..index] + queue[index + 1..]];
      } else {
        UpdateSame(queues, cubeType);
      }
    }

    /** createMatch: remove both users, then emit the match. */
    method CreateMatch(user1: string, user2: string, cubeType: CubeType, maxQueueTime: int)
      requires Valid() && cubeType in queues
      modifies this
      ensures Valid()
      ensures queues == old(queues)[cubeType := RemoveFirst(RemoveFirst(old(queues[cubeType]), user1), user2)]
      ensures matches == old(matches) + [QueueMatch(user1, user2, cubeType, maxQueueTime)]
    {
      ghost var q := queues[cubeType];
      RemoveFromQueue(user1, cubeType);
      ghost var q1 := queues[cubeType];
      RemoveFromQueue(user2, cubeType);
      UpdateTwice(old(queues), cubeType, q1, queues[cubeType]);
      matches := matches + [QueueMatch(user1, user2, cubeType, maxQueueTime)];
    }

    method AddToQueue(username: string, avgSolveTime: int, cubeType: CubeType, now: int)
      requires Valid() && cubeType in queues
      modifies this
      ensures Valid()
      ensures queues == old(queues)[cubeType := Enqueued(old(queues[cubeType]), QueueUser(username, avgSolveTime, now), cubeType).0]
      ensures matches == old(matches) + Enqueued(old(queues[cubeType]), QueueUser(username, avgSolveTime, now), cubeType).1
    {
      ghost var user := QueueUser(username, avgSolveTime, now);
      ghost var e := Enqueued(queues[cubeType], user, cubeType);
      EnqueuedSpec(queues[cubeType], user, cubeType);
      AllUniqueUpdate(queues, cubeType, e.0);
      if FindIndex(queues[cubeType], username) != -1 {
        RemoveFromQueue(username, cubeType);
      } else {
        UpdateSame(queues, cubeType);
      }
      ghost var q0 := queues[cubeType];
      var maxTimeDiff := GetMaxTimeDiff(0);
      var found := FindBestMatch(QueueUser(username, avgSolveTime, now), queues[cubeType], {}, maxTimeDiff);
      ghost var best := BestMatch(user, q0, {}, MaxTimeDiff(0));
      if found.Some? {
        assert found.value.username == q0[best.value].username;
        assert e.0 == RemoveFirst(RemoveFirst(q0, username), found.value.username);
        assert e.1 == [QueueMatch(username, found.value.username, cubeType, 0)];
        CreateMatch(username, found.value.username, cubeType, 0);
        UpdateTwice(old(queues), cubeType, q0, e.0);
        return;
      }
      assert e.0 == q0 + [user] && e.1 == [];
      queues := queues[cubeType := queues[cubeType] + [QueueUser(username, avgSolveTime, now)]];
      UpdateTwice(old(queues), cubeType, q0, e.0);
    }

    /** findMatches: walks the live queue by position, as a JavaScript array iterator
        does, while matched users are spliced out of it. */
    method FindMatches(cubeType: CubeType, now: int)
      requires Valid() && cubeType in queues
      modifies this
      ensures Valid()
      ensures queues == old(queues)[cubeType := Sweep(old(queues[cubeType]), cubeType, now).0]
      ensures matches == old(matches) + Sweep(old(queues[cubeType]), cubeType, now).1
    {
      if |queues[cubeType]| < 2 {
        return;
      }
      ghost var q0 := queues[cubeType];
      ghost var cur := q0;
      ghost var emitted: seq<QueueMatch> := [];
      ghost var rem := SweepFrom(q0, 0, {}, cubeType, now);
      assert Sweep(q0, cubeType, now) == rem && emitted + rem.1 == rem.1;
      var matchedUsers: set<string> := {};
      var i := 0;
      while i < |queues[cubeType]|
        invariant Valid() && cubeType in queues && queues[cubeType] == cur
        invariant queues == old(queues)[cubeType := cur]
        invariant matches == old(matches) + emitted
        invariant rem == SweepFrom(cur, i, matchedUsers, cubeType, now)
        invariant Sweep(q0, cubeType, now) == (rem.0, emitted + rem.1)
        decreases |cur| - i
      {
        var user := queues[cubeType][i];
        var found: Option<QueueUser> := None;
        var waitTime := now - user.queuedAt;
        if user.username !in matchedUsers {
          var maxTimeDiff := GetMaxTimeDiff(waitTime);
          found := FindBestMatch(user, queues[cubeType], matchedUsers, maxTimeDiff);
        }
        if found.Some? {
          ghost var k := BestMatch(cur[i], cur, matchedUsers, MaxTimeDiff(waitTime)).value;
          assert found.value == cur[k];
          ghost var m := QueueMatch(user.username, found.value.username, cubeType, waitTime);
          ghost var rest := SweepTaken(cur, i, matchedUsers, cubeType, now);
          AppendAssoc(emitted, [m], rest.1);
          AppendAssoc(old(matches), emitted, [m]);
          matchedUsers := matchedUsers + {user.username, found.value.username};
          CreateMatch(user.username, found.value.username, cubeType, waitTime);
          UpdateTwice(old(queues), cubeType, cur, queues[cubeType]);
          cur, rem, emitted := queues[cubeType], rest, emitted + [m];
        } else {
          SweepSkipped(cur, i, matchedUsers, cubeType, now);
        }
        i := i + 1;
      }
    }

    /** One firing of the 2500 ms interval timer: a sweep of the 3x3 queue. */
    method Tick(now: int)
      requires Valid()
      modifies this
      ensures Valid()
      ensures queues == old(queues)[ThreeByThree := Sweep(old(queues[ThreeByThree]), ThreeByThree, now).0]
      ensures matches == old(matches) + Sweep(old(queues[ThreeByThree]), ThreeByThree, now).1
    {
      FindMatches(ThreeByThree, now);
    }
  }
}
