/** The race result panel (MultiResult.tsx): who won a two-person race, and how a
    time is shown with its penalty. Time formatting itself is a parameter. */
module MultiResult {
  import opened Common
  import opened Records

  /** A username, 'tie', or null. */
  datatype Winner = NoWinner | Player(username: string) | Tie

  /** The time a result is compared by: 2000 ms more for a +2. */
  function AdjustedTime(r: SolveResult): (t: int)
    ensures r.penalty == PlusTwo ==> t == r.time + 2000
    ensures r.penalty != PlusTwo ==> t == r.time
  {
    if r.penalty == PlusTwo then r.time + 2000 else r.time
  }

  /** determineWinner over `session.results`, None when absent. Only the first two
      entries are compared. */
  function DetermineWinner(results: Option<seq<Entry<SolveResult>>>): (w: Winner)
  {
    if results.None? || |results.value| < 2 then NoWinner
    else
      var p1, p2 := results.value[0], results.value[1];
      if p1.value.penalty == Dnf then Player(p2.key)
      else if p2.value.penalty == Dnf then Player(p1.key)
      else
        var t1, t2 := AdjustedTime(p1.value), AdjustedTime(p2.value);
        if t1 < t2 then Player(p1.key)
        else if t2 < t1 then Player(p2.key)
        else Tie
  }

  /** There is no winner exactly when there are fewer than two results; otherwise the
      winner is one of the first two players or a tie. */
  lemma WinnerShape(results: Option<seq<Entry<SolveResult>>>)
    ensures var w := DetermineWinner(results);
      (w == NoWinner <==> results.None? || |results.value| < 2) &&
      (w.Player? ==> w.username == results.value[0].key || w.username == results.value[1].key)
  {
  }

  /** Entries after the second never matter. */
  lemma OnlyFirstTwoCount(a: Entry<SolveResult>, b: Entry<SolveResult>, more: seq<Entry<SolveResult>>)
    ensures DetermineWinner(Some([a, b] + more)) == DetermineWinner(Some([a, b]))
  {
    assert ([a, b] + more)[0] == a && ([a, b] + more)[1] == b;
  }

  /** A DNF loses: if the first player is DNF the second wins, even when also DNF; if only
      the second is DNF the first wins. */
  lemma DnfLoses(a: Entry<SolveResult>, b: Entry<SolveResult>)
    ensures a.value.penalty == Dnf ==> DetermineWinner(Some([a, b])) == Player(b.key)
    ensures a.value.penalty != Dnf && b.value.penalty == Dnf ==> DetermineWinner(Some([a, b])) == Player(a.key)
  {
  }

  /** Without DNFs, the strictly smaller adjusted time wins and equal times tie. */
  lemma FasterWins(a: Entry<SolveResult>, b: Entry<SolveResult>)
    requires a.value.penalty != Dnf && b.value.penalty != Dnf
    ensures var w := DetermineWinner(Some([a, b]));
      (AdjustedTime(a.value) < AdjustedTime(b.value) ==> w == Player(a.key)) &&
      (AdjustedTime(b.value) < AdjustedTime(a.value) ==> w == Player(b.key)) &&
      (w == Tie <==> AdjustedTime(a.value) == AdjustedTime(b.value))
  {
  }

  /** A +2 counts exactly 2000 ms: a clean solve beats a +2 solve unless it is at least
      2000 ms slower. */
  lemma PlusTwoCostsTwoSeconds(a: Entry<SolveResult>, b: Entry<SolveResult>)
    requires a.key != b.key && a.value.penalty == NoPenalty && b.value.penalty == PlusTwo
    ensures DetermineWinner(Some([a, b])) == Player(a.key) <==> a.value.time < b.value.time + 2000
    ensures DetermineWinner(Some([a, b])) == Tie <==> a.value.time == b.value.time + 2000
  {
  }

  /** Without DNFs the order of the two entries does not change who wins, or a tie. */
  lemma WinnerOrderFree(a: Entry<SolveResult>, b: Entry<SolveResult>)
    requires a.value.penalty != Dnf && b.value.penalty != Dnf
    ensures DetermineWinner(Some([a, b])) == DetermineWinner(Some([b, a]))
  {
  }

  /** With two DNFs the order decides: the second entry always wins. */
  lemma DoubleDnfOrderDecides(a: Entry<SolveResult>, b: Entry<SolveResult>)
    requires a.value.penalty == Dnf && b.value.penalty == Dnf
    ensures DetermineWinner(Some([a, b])) == Player(b.key) && DetermineWinner(Some([b, a])) == Player(a.key)
  {
  }

  /** getFormattedTime, with formatTime as `format`. */
  function FormattedTime(format: int -> string, time: int, penalty: Penalty): (s: string)
  {
    match penalty
    case PlusTwo => format(time + 2000) + "+"
    case Dnf => "DNF(" + format(time) + ")"
    case NoPenalty => format(time)
  }

  /** A +2 shows the penalised time marked with "+", a DNF shows the raw time inside
      "DNF(...)", and a clean solve shows the raw time alone. */
  lemma FormattedTimeShape(format: int -> string, time: int, penalty: Penalty)
    ensures var s := FormattedTime(format, time, penalty);
      (penalty == PlusTwo ==> |s| == |format(time + 2000)| + 1 && s[..|s| - 1] == format(time + 2000) && s[|s| - 1] == '+') &&
      (penalty == Dnf ==> s[..4] == "DNF(" && s[4..|s| - 1] == format(time) && s[|s| - 1] == ')') &&
      (penalty == NoPenalty ==> s == format(time))
  {
    var s := FormattedTime(format, time, penalty);
    if penalty == Dnf {
      assert s == "DNF(" + format(time) + ")";
      assert s[..4] == "DNF(";
      assert s[4..|s| - 1] == format(time);
    } else if penalty == PlusTwo {
      assert s[..|s| - 1] == format(time + 2000);
    }
  }
}
