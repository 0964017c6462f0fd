/** How the scrambles the service generates look on the preview: every generated
    token is one of VALID_MOVES, so the preview plays all twenty moves in order. */
module ScrambleDisplay {
  import opened Text
  import opened CubePreview
  import opened CubeMoves
  import opened Scrambler

  /** A generated token is always a valid move. */
  lemma TokenIsValidMove(d: Draw)
    requires d.move < |Moves| && d.modifier < |Modifiers|
    ensures Token(d) in ValidMoves
  {
    var t := Token(d);
    TokenShape(d);
    assert t[..1] == [t[0]];
    assert KeyOf([t[0]]).Some?;
    ValidMovesShape(t);
  }

  /** A list of valid moves is played in full. */
  lemma {:induction false} PlayableAllValid(moves: seq<string>)
    requires forall i :: 0 <= i < |moves| ==> moves[i] in ValidMoves
    ensures Playable(moves) == moves
  {
    if moves != [] {
      PlayableAllValid(moves[..|moves| - 1]);
      assert moves[..|moves| - 1] + [moves[|moves| - 1]] == moves;
    }
  }

  /** Showing a generated scramble plays its twenty tokens, in the order generated. */
  lemma ShowGeneratedScramble(draws: seq<Draw>)
    requires ValidDraws(draws)
    ensures Playable(ScrambleMoves(GenerateScramble(draws))) == Tokens(draws)
  {
    ScrambleSplits(draws);
    forall i | 0 <= i < |Tokens(draws)| ensures Tokens(draws)[i] in ValidMoves {
      TokenIsValidMove(draws[i]);
    }
    PlayableAllValid(Tokens(draws));
  }
}
