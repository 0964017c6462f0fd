/** The scramble generator of the competition service (scrambler.ts): twenty
    random moves, each a face letter with an optional prime or 2, joined by spaces.

    The random picks are an input: draw i holds the two indices that
    Math.floor(Math.random() * n) produced for the i-th move. */
module Scrambler {
  import opened Text

  const Moves: seq<string> := ["R", "L", "U", "D", "F", "B"]
  const Modifiers: seq<string> := ["", "'", "2"]

  /** The number of moves in every scramble. */
  const ScrambleLength: nat := 20

  /** The indices picked for one move: a face and a modifier. */
  datatype Draw = Draw(move: nat, modifier: nat)

  /** Twenty draws, each index below the length of the list it picks from. */
  predicate ValidDraws(draws: seq<Draw>) {
    |draws| == ScrambleLength &&
    forall i :: 0 <= i < |draws| ==> draws[i].move < |Moves| && draws[i].modifier < |Modifiers|
  }

  /** move + modifier */
  function Token(d: Draw): (t: string)
    requires d.move < |Moves| && d.modifier < |Modifiers|
  {
    Moves[d.move] + Modifiers[d.modifier]
  }

  /** Every token is one of the six face letters followed by one of the three
      modifiers, and so is a non-empty string without whitespace. */
  lemma TokenShape(d: Draw)
    requires d.move < |Moves| && d.modifier < |Modifiers|
    ensures var t := Token(d); 1 <= |t| <= 2 && [t[0]] in Moves && t[1..] in Modifiers
    ensures IsWord(Token(d))
  {
    var t := Token(d);
    assert |Moves[d.move]| == 1;
    assert [t[0]] == Moves[d.move];
    assert t[1..] == Modifiers[d.modifier];
  }

  /** The tokens of Array.from({ length: 20 }, ...), in order. */
  function Tokens(draws: seq<Draw>): (ts: seq<string>)
    requires ValidDraws(draws)
    ensures |ts| == ScrambleLength
    ensures forall i :: 0 <= i < |ts| ==> ts[i] == Token(draws[i])
  {
    seq(ScrambleLength, i requires 0 <= i < ScrambleLength => Token(draws[i]))
  }

  /** generateScramble */
  function GenerateScramble(draws: seq<Draw>): (s: string)
    requires ValidDraws(draws)
  {
    Join(Tokens(draws), " ")
  }

  lemma TokensAreWords(draws: seq<Draw>)
    requires ValidDraws(draws)
    ensures forall i :: 0 <= i < |Tokens(draws)| ==> IsWord(Tokens(draws)[i])
  {
    forall i | 0 <= i < |Tokens(draws)| ensures IsWord(Tokens(draws)[i]) {
      TokenShape(draws[i]);
    }
  }

  /** A scramble splits back into exactly its twenty tokens, in order, and has no
      whitespace at either end. */
  lemma ScrambleSplits(draws: seq<Draw>)
    requires ValidDraws(draws)
    ensures Words(GenerateScramble(draws)) == Tokens(draws)
    ensures |Words(GenerateScramble(draws))| == 20
    ensures var s := GenerateScramble(draws); s != [] && !IsSpace(s[0]) && !IsSpace(s[|s| - 1])
  {
    TokensAreWords(draws);
    WordsOfJoin(Tokens(draws));
    JoinTrimmed(Tokens(draws));
  }
}
