/** Moves on the scramble preview (CubePreview3d.tsx): reading a move such as "R",
    "R'" or "R2", and showing a whole scramble on a cube reset to its initial state. */
module CubeMoves {
  import opened Common
  import opened Text
  import opened CubePreview

  /** VALID_MOVES: a face key alone, with a prime, or with a 2. */
  const ValidMoves: set<string> := {
    "F", "F'", "B", "B'", "R", "R'", "L", "L'", "U", "U'", "D", "D'",
    "F2", "B2", "R2", "L2", "U2", "D2"
  }

  /** The three suffixes a move may carry. */
  const Suffixes: set<string> := {"", "'", "2"}

  /** The valid moves are exactly a face key followed by one of the three suffixes. */
  lemma ValidMovesShape(move: string)
    ensures move in ValidMoves <==> |move| >= 1 && KeyOf(move[..1]).Some? && move[1..] in Suffixes
  {
    if |move| >= 1 && KeyOf(move[..1]).Some? && move[1..] in Suffixes {
      var k, suffix := KeyOf(move[..1]).value, move[1..];
      assert move == KeyName(k) + suffix;
      KeyWithSuffixValid(k, suffix);
    }
    if move in ValidMoves {
      ValidMoveSplits(move);
    }
  }

  lemma KeyWithSuffixValid(k: FaceKey, suffix: string)
    requires suffix in Suffixes
    ensures KeyName(k) + suffix in ValidMoves
  {
    var move := KeyName(k) + suffix;
    if suffix == "" {
      assert move == KeyName(k);
    } else {
      assert move == [KeyName(k)[0], suffix[0]];
    }
    match k
    case F => case B => case R => case L => case U => case D =>
  }

  lemma ValidMoveSplits(move: string)
    requires move in ValidMoves
    ensures |move| >= 1 && KeyOf(move[..1]).Some? && move[1..] in Suffixes
  {
    var k := move[0];
    assert move[..1] == [k];
    assert |move| == 1 ==> move[1..] == "";
    assert |move| == 2 ==> move[1..] == [move[1]];
  }

  /** What processMove reads from a move string. */
  datatype ParsedMove = ParsedMove(face: string, clockwise: bool, double: bool)

  /** A move ending in '2' is a double turn, a move containing a prime turns
      counter-clockwise, and either suffix is cut off to leave the face. */
  function ParseMove(move: string): (m: ParsedMove)
    ensures m.double <==> move != [] && move[|move| - 1] == '2'
    ensures m.clockwise <==> '\'' !in move
    ensures (m.double || !m.clockwise) ==> move != [] && m.face + [move[|move| - 1]] == move
    ensures !m.double && m.clockwise ==> m.face == move
  {
    var isDouble := move != [] && move[|move| - 1] == '2';
    var isPrime := '\'' in move;
    ParsedMove(if isDouble || isPrime then move[..|move| - 1] else move, !isPrime, isDouble)
  }

  /** rotateAnyFace as a function: an unknown key leaves the state as it is. */
  function Rotated(s: CubeState, face: string, clockwise: bool): (r: CubeState)
    requires Shaped(s)
    ensures Shaped(r)
  {
    match KeyOf(face)
    case None => s
    case Some(k) => Turn(s, k, clockwise)
  }

  /** The state after processMove: one turn, or two for a double move. */
  function MoveResult(s: CubeState, move: string): (r: CubeState)
    requires Shaped(s)
    ensures Shaped(r)
  {
    var m := ParseMove(move);
    var once := Rotated(s, m.face, m.clockwise);
    if m.double then Rotated(once, m.face, m.clockwise) else once
  }

  /** The moves of a list that are among VALID_MOVES, in order. */
  function Playable(moves: seq<string>): (ps: seq<string>)
    ensures |ps| <= |moves|
    ensures forall i :: 0 <= i < |ps| ==> ps[i] in ValidMoves
  {
    if moves == [] then []
    else
      var rest := Playable(moves[..|moves| - 1]);
      if moves[|moves| - 1] in ValidMoves then rest + [moves[|moves| - 1]] else rest
  }

  /** The state after the moves, applied one after another. */
  function ApplyMoves(s: CubeState, moves: seq<string>): (r: CubeState)
    requires Shaped(s)
    ensures Shaped(r)
  {
    if moves == [] then s else MoveResult(ApplyMoves(s, moves[..|moves| - 1]), moves[|moves| - 1])
  }

  /** One more move of a list: played when valid, skipped otherwise. */
  lemma PlayableStep(moves: seq<string>, i: nat)
    requires i < |moves|
    ensures moves[i] in ValidMoves ==> Playable(moves[..i + 1]) == Playable(moves[..i]) + [moves[i]]
    ensures moves[i] !in ValidMoves ==> Playable(moves[..i + 1]) == Playable(moves[..i])
  {
    assert moves[..i + 1][..i] == moves[..i];
  }

  lemma ApplyMovesStep(s: CubeState, moves: seq<string>, move: string)
    requires Shaped(s)
    ensures ApplyMoves(s, moves + [move]) == MoveResult(ApplyMoves(s, moves), move)
  {
    assert (moves + [move])[..|moves|] == moves;
  }

  /** The moves of a scramble string: none for the empty string, otherwise its
      whitespace-separated tokens. */
  function ScrambleMoves(scramble: string): (ms: seq<string>)
    ensures scramble == [] ==> ms == []
    ensures scramble != [] && Words(scramble) != [] ==> ms == Words(scramble)
  {
    if scramble == [] then [] else TrimSplit(scramble)
  }

  // ---------------------------------------------------------------------------
  // The meaning of each valid move

  /** "X" is one clockwise turn of layer X. */
  lemma PlainMove(s: CubeState, k: FaceKey)
    requires Shaped(s)
    ensures MoveResult(s, KeyName(k)) == Turn(s, k, true)
  {
    KeyOfName(k);
  }

  /** "X'" is one counter-clockwise turn of layer X. */
  lemma PrimeMove(s: CubeState, k: FaceKey)
    requires Shaped(s)
    ensures MoveResult(s, KeyName(k) + "'") == Turn(s, k, false)
  {
    var move := KeyName(k) + "'";
    assert move[..|move| - 1] == KeyName(k);
    assert move[1] == '\'';
    KeyOfName(k);
  }

  /** "X2" is two clockwise turns of layer X. */
  lemma DoubleMove(s: CubeState, k: FaceKey)
    requires Shaped(s)
    ensures MoveResult(s, KeyName(k) + "2") == Turn(Turn(s, k, true), k, true)
  {
    var move := KeyName(k) + "2";
    assert move[..|move| - 1] == KeyName(k);
    assert '\'' !in move by {
      assert move == [move[0], '2'];
    }
    KeyOfName(k);
  }

  /** A move whose face part is not a key changes nothing; "R'2", which is both
      primed and doubled, keeps "R'" as its face and is such a move. */
  lemma UnknownMoveKeepsState(s: CubeState, move: string)
    requires Shaped(s) && KeyOf(ParseMove(move).face).None?
    ensures MoveResult(s, move) == s
  {
  }

  lemma PrimeDoubleIsUnknown()
    ensures KeyOf(ParseMove("R'2").face).None?
  {
    assert ParseMove("R'2").face == "R'";
  }

  /** A move followed by its primed move, or the other way round, restores the state. */
  lemma PrimeUndoesMove(s: CubeState, k: FaceKey)
    requires Shaped(s)
    ensures MoveResult(MoveResult(s, KeyName(k)), KeyName(k) + "'") == s
    ensures MoveResult(MoveResult(s, KeyName(k) + "'"), KeyName(k)) == s
  {
    PlainMove(s, k);
    PrimeMove(MoveResult(s, KeyName(k)), k);
    PrimeMove(s, k);
    PlainMove(MoveResult(s, KeyName(k) + "'"), k);
    PatternsWellFormed(k);
    TurnInverse(s, Pattern(k), true);
    TurnInverse(s, Pattern(k), false);
  }

  /** A double move done twice restores the state. */
  lemma DoubleTwice(s: CubeState, k: FaceKey)
    requires Shaped(s)
    ensures MoveResult(MoveResult(s, KeyName(k) + "2"), KeyName(k) + "2") == s
  {
    DoubleMove(s, k);
    DoubleMove(MoveResult(s, KeyName(k) + "2"), k);
    PatternsWellFormed(k);
    TurnOrderFour(s, Pattern(k), true);
  }

  // ---------------------------------------------------------------------------
  // Colours

  lemma RotatedKeepsColourCounts(s: CubeState, face: string, clockwise: bool, c: Color)
    requires Shaped(s)
    ensures ColourCount(Rotated(s, face, clockwise), c) == ColourCount(s, c)
  {
    if KeyOf(face).Some? {
      PatternsWellFormed(KeyOf(face).value);
      TurnKeepsColourCounts(s, Pattern(KeyOf(face).value), clockwise, c);
    }
  }

  /** Every move keeps the number of stickers of each colour. */
  lemma MoveKeepsColourCounts(s: CubeState, move: string, c: Color)
    requires Shaped(s)
    ensures ColourCount(MoveResult(s, move), c) == ColourCount(s, c)
  {
    var m := ParseMove(move);
    RotatedKeepsColourCounts(s, m.face, m.clockwise, c);
    RotatedKeepsColourCounts(Rotated(s, m.face, m.clockwise), m.face, m.clockwise, c);
  }

  /** However the initial cube is scrambled, it shows nine stickers of each colour. */
  lemma {:induction false} ScrambledColourCounts(moves: seq<string>, k: FaceKey)
    ensures Shaped(Initial) && ColourCount(ApplyMoves(Initial, moves), ColorOf(k)) == 9
  {
    InitialColourCount(k);
    if moves != [] {
      ScrambledColourCounts(moves[..|moves| - 1], k);
      MoveKeepsColourCounts(ApplyMoves(Initial, moves[..|moves| - 1]), moves[|moves| - 1], ColorOf(k));
    }
  }

  // ---------------------------------------------------------------------------
  // The component's cube state

  /** The preview's React state: the cube currently shown. */
  class Preview {
    var cubeState: CubeState

    ghost predicate Valid()
      reads this
    {
      Shaped(cubeState)
    }

    /** The preview starts from initialCubeState. */
    constructor()
      ensures Valid() && cubeState == Initial
    {
      InitialFaces(F);
      cubeState := Initial;
    }

    /** processMove: the state becomes the result of the move. */
    method ProcessMove(move: string)
      requires Valid()
      modifies this
      ensures Valid() && cubeState == MoveResult(old(cubeState), move)
    {
      var isDouble := move != [] && move[|move| - 1] == '2';
      var isPrime := '\'' in move;
      var face := if isDouble then move[..|move| - 1] else if isPrime then move[..|move| - 1] else move;
      var newState := RotateAnyFace(cubeState, face, !isPrime);
      if isDouble {
        newState := RotateAnyFace(newState, face, !isPrime);
      }
      cubeState := newState;
    }

    /** Showing a scramble: reset to the initial state, then play the valid moves in
        order, skipping the others. */
    method ShowScramble(scramble: string)
      requires Valid()
      modifies this
      ensures Valid() && cubeState == ApplyMoves(Initial, Playable(ScrambleMoves(scramble)))
    {
      InitialFaces(F);
      cubeState := Initial;
      if scramble != [] {
        var moves := TrimSplit(scramble);
        for i := 0 to |moves|
          invariant Valid() && cubeState == ApplyMoves(Initial, Playable(moves[..i]))
        {
          PlayableStep(moves, i);
          if moves[i] in ValidMoves {
            ProcessMove(moves[i]);
            ApplyMovesStep(Initial, Playable(moves[..i]), moves[i]);
          }
        }
        assert moves[..|moves|] == moves;
      }
    }
  }
}
