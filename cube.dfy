/** The Rubik's cube sticker model behind the 3D scramble preview (CubePreview3d.tsx).

    A cube state holds six faces of nine stickers each. A face turn rotates the nine
    stickers of the turning face and cycles three stickers on each of the four faces
    around it, as described by the table FACE_PATTERNS. A move such as "R", "R'" or
    "R2" is one clockwise turn, one counter-clockwise turn, or two clockwise turns. */
module CubePreview {
  import opened Common

  type Color = string

  /** The six face keys of move notation. */
  datatype FaceKey = F | B | R | L | U | D

  datatype FaceName = Front | Back | Right | Left | Top | Bottom

  const Faces: seq<FaceName> := [Front, Back, Right, Left, Top, Bottom]

  lemma FacesComplete(f: FaceName)
    ensures f in Faces
  {
  }

  /** A face key written as a string, as moves and the FACE_PATTERNS lookup use it. Any
      other string finds no pattern; names of Object.prototype members, which the
      lookup would find by inheritance, are not modelled. */
  function KeyOf(s: string): (k: Option<FaceKey>)
    ensures k.Some? ==> |s| == 1 && s == KeyName(k.value)
  {
    if s == "F" then Some(F)
    else if s == "B" then Some(B)
    else if s == "R" then Some(R)
    else if s == "L" then Some(L)
    else if s == "U" then Some(U)
    else if s == "D" then Some(D)
    else None
  }

  function KeyName(k: FaceKey): string {
    match k
    case F => "F" case B => "B" case R => "R" case L => "L" case U => "U" case D => "D"
  }

  /** Reading a key back from its name gives the key. */
  lemma KeyOfName(k: FaceKey)
    ensures KeyOf(KeyName(k)) == Some(k)
  {
  }

  /** COLORS */
  function ColorOf(k: FaceKey): Color {
    match k
    case F => "#00ff00"
    case B => "#0000ff"
    case R => "#ff0000"
    case L => "#ffa500"
    case U => "#ffffff"
    case D => "#ffff00"
  }

  /** The face key a colour belongs to, read from the first hex digit of each channel. */
  function KeyOfColor(c: Color): (k: Option<FaceKey>)
    requires |c| == 7
  {
    match (c[1], c[3], c[5])
    case ('0', 'f', '0') => Some(F)
    case ('0', '0', 'f') => Some(B)
    case ('f', '0', '0') => Some(R)
    case ('f', 'a', '0') => Some(L)
    case ('f', 'f', 'f') => Some(U)
    case ('f', 'f', '0') => Some(D)
    case _ => None
  }

  lemma ColorKeyOf(k: FaceKey)
    ensures |ColorOf(k)| == 7 && KeyOfColor(ColorOf(k)) == Some(k)
  {
  }

  /** The six colours are pairwise different. */
  lemma ColorsDistinct(k1: FaceKey, k2: FaceKey)
    ensures ColorOf(k1) == ColorOf(k2) ==> k1 == k2
  {
    ColorKeyOf(k1);
    ColorKeyOf(k2);
  }

  /** FACE_MAP */
  function FaceOf(k: FaceKey): FaceName {
    match k
    case F => Front case B => Back case R => Right case L => Left case U => Top case D => Bottom
  }

  // ---------------------------------------------------------------------------
  // Cube states

  datatype CubeState = CubeState(front: seq<Color>, back: seq<Color>, right: seq<Color>,
                                 left: seq<Color>, top: seq<Color>, bottom: seq<Color>)

  /** state[face] */
  function Get(s: CubeState, f: FaceName): seq<Color> {
    match f
    case Front => s.front
    case Back => s.back
    case Right => s.right
    case Left => s.left
    case Top => s.top
    case Bottom => s.bottom
  }

  /** state[face] = v on a copy of the state. */
  function With(s: CubeState, f: FaceName, v: seq<Color>): (r: CubeState)
    ensures Get(r, f) == v
    ensures forall g :: g != f ==> Get(r, g) == Get(s, g)
  {
    match f
    case Front => s.(front := v)
    case Back => s.(back := v)
    case Right => s.(right := v)
    case Left => s.(left := v)
    case Top => s.(top := v)
    case Bottom => s.(bottom := v)
  }

  /** Every face has nine stickers. */
  predicate Shaped(s: CubeState) {
    forall f :: |Get(s, f)| == 9
  }

  /** Two states are equal when all their faces are. */
  lemma StateExt(s: CubeState, t: CubeState)
    requires forall f :: Get(s, f) == Get(t, f)
    ensures s == t
  {
    assert Get(s, Front) == Get(t, Front) && Get(s, Back) == Get(t, Back);
    assert Get(s, Right) == Get(t, Right) && Get(s, Left) == Get(t, Left);
    assert Get(s, Top) == Get(t, Top) && Get(s, Bottom) == Get(t, Bottom);
  }

  /** initialCubeState: every face filled with its own colour. */
  const Initial: CubeState := CubeState(
    seq(9, _ => ColorOf(F)), seq(9, _ => ColorOf(B)), seq(9, _ => ColorOf(R)),
    seq(9, _ => ColorOf(L)), seq(9, _ => ColorOf(U)), seq(9, _ => ColorOf(D)))

  /** The initial state is shaped, and face k shows only the colour of key k. */
  lemma InitialFaces(k: FaceKey)
    ensures Shaped(Initial)
    ensures forall t :: 0 <= t < 9 ==> Get(Initial, FaceOf(k))[t] == ColorOf(k)
  {
  }

  // ---------------------------------------------------------------------------
  // rotateFace

  /** The position each sticker of a turned face comes from. */
  function RotationSource(clockwise: bool): seq<nat> {
    if clockwise then [6, 3, 0, 7, 4, 1, 8, 5, 2] else [2, 5, 8, 1, 4, 7, 0, 3, 6]
  }

  /** rotateFace: the nine stickers of the turning face, turned a quarter. */
  function RotateFace(face: seq<Color>, clockwise: bool): (r: seq<Color>)
    requires |face| == 9
    ensures |r| == 9 && r[4] == face[4]
    ensures forall t :: 0 <= t < 9 ==> r[t] == face[RotationSource(clockwise)[t]]
  {
    if clockwise then
      [face[6], face[3], face[0], face[7], face[4], face[1], face[8], face[5], face[2]]
    else
      [face[2], face[5], face[8], face[1], face[4], face[7], face[0], face[3], face[6]]
  }

  lemma RotationSourceInverse(clockwise: bool, t: nat)
    requires t < 9
    ensures RotationSource(clockwise)[RotationSource(!clockwise)[t]] == t
  {
    assert t == 0 || t == 1 || t == 2 || t == 3 || t == 4 || t == 5 || t == 6 || t == 7 || t == 8;
  }

  /** A quarter turn one way followed by a quarter turn the other way restores the face. */
  lemma RotateFaceInverse(face: seq<Color>, clockwise: bool)
    requires |face| == 9
    ensures RotateFace(RotateFace(face, clockwise), !clockwise) == face
  {
    var r := RotateFace(RotateFace(face, clockwise), !clockwise);
    forall t | 0 <= t < 9 ensures r[t] == face[t] {
      RotationSourceInverse(!clockwise, t);
    }
  }

  /** Four clockwise quarter turns restore the face. */
  lemma RotateFaceOrderFour(face: seq<Color>)
    requires |face| == 9
    ensures RotateFace(RotateFace(RotateFace(RotateFace(face, true), true), true), true) == face
  {
    var r1 := RotateFace(face, true);
    var r2 := RotateFace(r1, true);
    var r3 := RotateFace(r2, true);
    var r4 := RotateFace(r3, true);
    assert r4 == [face[0], face[1], face[2], face[3], face[4], face[5], face[6], face[7], face[8]];
  }

  /** Exchanging two stickers keeps the multiset of colours. */
  lemma SwapMultiset<T>(s: seq<T>, i: nat, j: nat)
    requires i < |s| && j < |s|
    ensures multiset(s[i := s[j]][j := s[i]]) == multiset(s)
  {
  }

  /** The face with the stickers at i and j exchanged. */
  function SwapAt(s: seq<Color>, i: nat, j: nat): seq<Color>
    requires i < |s| && j < |s|
  {
    s[i := s[j]][j := s[i]]
  }

  /** A clockwise quarter turn is six exchanges of two stickers. */
  lemma ClockwiseBySwaps(face: seq<Color>)
    requires |face| == 9
    ensures RotateFace(face, true) ==
      SwapAt(SwapAt(SwapAt(SwapAt(SwapAt(SwapAt(face, 0, 6), 6, 8), 8, 2), 1, 3), 3, 7), 7, 5)
  {
    var s6 := SwapAt(SwapAt(SwapAt(SwapAt(SwapAt(SwapAt(face, 0, 6), 6, 8), 8, 2), 1, 3), 3, 7), 7, 5);
    var r := RotateFace(face, true);
    forall t | 0 <= t < 9 ensures s6[t] == r[t] {
      assert t == 0 || t == 1 || t == 2 || t == 3 || t == 4 || t == 5 || t == 6 || t == 7 || t == 8;
    }
  }

  /** Turning a face only moves its stickers around. */
  lemma RotateFaceMultiset(face: seq<Color>, clockwise: bool)
    requires |face| == 9
    ensures multiset(RotateFace(face, clockwise)) == multiset(face)
    decreases if clockwise then 0 else 1
  {
    if clockwise {
      ClockwiseBySwaps(face);
      var s1 := SwapAt(face, 0, 6);
      var s2 := SwapAt(s1, 6, 8);
      var s3 := SwapAt(s2, 8, 2);
      var s4 := SwapAt(s3, 1, 3);
      var s5 := SwapAt(s4, 3, 7);
      SwapMultiset(face, 0, 6);
      SwapMultiset(s1, 6, 8);
      SwapMultiset(s2, 8, 2);
      SwapMultiset(s3, 1, 3);
      SwapMultiset(s4, 3, 7);
      SwapMultiset(s5, 7, 5);
    } else {
      var back := RotateFace(face, false);
      RotateFaceMultiset(back, true);
      RotateFaceInverse(face, false);
    }
  }

  // ---------------------------------------------------------------------------
  // FACE_PATTERNS

  datatype AffectedFace = AffectedFace(face: FaceName, indices: seq<nat>)

  datatype FacePattern = FacePattern(rotating: FaceName, affected: seq<AffectedFace>,
                                     clockwise: seq<FaceName>, counterClockwise: seq<FaceName>)

  /** FACE_PATTERNS[key] */
  function Pattern(k: FaceKey): FacePattern {
    match k
    case R => FacePattern(Right,
      [AffectedFace(Front, [2, 5, 8]), AffectedFace(Top, [2, 5, 8]),
       AffectedFace(Back, [6, 3, 0]), AffectedFace(Bottom, [2, 5, 8])],
      [Front, Bottom, Back, Top], [Front, Top, Back, Bottom])
    case L => FacePattern(Left,
      [AffectedFace(Front, [0, 3, 6]), AffectedFace(Bottom, [0, 3, 6]),
       AffectedFace(Back, [8, 5, 2]), AffectedFace(Top, [0, 3, 6])],
      [Front, Top, Back, Bottom], [Front, Bottom, Back, Top])
    case U => FacePattern(Top,
      [AffectedFace(Front, [0, 1, 2]), AffectedFace(Right, [0, 1, 2]),
       AffectedFace(Back, [0, 1, 2]), AffectedFace(Left, [0, 1, 2])],
      [Front, Right, Back, Left], [Front, Left, Back, Right])
    case D => FacePattern(Bottom,
      [AffectedFace(Front, [6, 7, 8]), AffectedFace(Left, [6, 7, 8]),
       AffectedFace(Back, [6, 7, 8]), AffectedFace(Right, [6, 7, 8])],
      [Front, Left, Back, Right], [Front, Right, Back, Left])
    case F => FacePattern(Front,
      [AffectedFace(Top, [6, 7, 8]), AffectedFace(Right, [0, 3, 6]),
       AffectedFace(Bottom, [2, 1, 0]), AffectedFace(Left, [8, 5, 2])],
      [Top, Left, Bottom, Right], [Top, Right, Bottom, Left])
    case B => FacePattern(Back,
      [AffectedFace(Top, [2, 1, 0]), AffectedFace(Left, [0, 3, 6]),
       AffectedFace(Bottom, [6, 7, 8]), AffectedFace(Right, [8, 5, 2])],
      [Top, Right, Bottom, Left], [Top, Left, Bottom, Right])
  }

  /** The pattern looked up by a string key; a key that is not in the table has none. */
  function PatternFor(face: string): Option<FacePattern> {
    match KeyOf(face)
    case Some(k) => Some(Pattern(k))
    case None => None
  }

  /** faceIndicesMap: each affected face mapped to its index list; a later entry for
      the same face overwrites an earlier one, as Map.set does. */
  function IndexMap(affected: seq<AffectedFace>): map<FaceName, seq<nat>>
  {
    if |affected| == 0 then map[]
    else IndexMap(affected[..|affected| - 1])[affected[|affected| - 1].face := affected[|affected| - 1].indices]
  }

  /** The faces in turning order for one direction. */
  function Cycle(p: FacePattern, clockwise: bool): seq<FaceName> {
    if clockwise then p.clockwise else p.counterClockwise
  }

  /** Four different faces. */
  predicate FourFaces(sq: seq<FaceName>) {
    |sq| == 4 && sq[0] != sq[1] && sq[0] != sq[2] && sq[0] != sq[3] &&
    sq[1] != sq[2] && sq[1] != sq[3] && sq[2] != sq[3]
  }

  /** The place of face f in a cycle of four. */
  function Rank(sq: seq<FaceName>, f: FaceName): (i: nat)
    requires |sq| == 4 && f in sq
    ensures i < 4 && sq[i] == f
  {
    if sq[0] == f then 0 else if sq[1] == f then 1 else if sq[2] == f then 2 else 3
  }

  /** The place of sticker t in an index list of three. */
  function Slot(ix: seq<nat>, t: nat): (j: nat)
    requires |ix| == 3 && t in ix
    ensures j < 3 && ix[j] == t
  {
    if ix[0] == t then 0 else if ix[1] == t then 1 else 2
  }

  lemma RankAt(sq: seq<FaceName>, i: nat)
    requires FourFaces(sq) && i < 4
    ensures Rank(sq, sq[i]) == i
  {
  }

  /** Three different sticker positions of one face. */
  predicate IndicesOk(ix: seq<nat>) {
    |ix| == 3 && ix[0] != ix[1] && ix[0] != ix[2] && ix[1] != ix[2] &&
    ix[0] < 9 && ix[1] < 9 && ix[2] < 9
  }

  lemma SlotAt(ix: seq<nat>, j: nat)
    requires IndicesOk(ix) && j < 3
    ensures Slot(ix, ix[j]) == j
  {
  }

  /** The shape every entry of FACE_PATTERNS has: the clockwise order visits four
      different faces, none of them the turning face; each of them has an index list
      of three different sticker positions; and the counter-clockwise order is the
      same cycle reversed. */
  ghost predicate WellFormed(p: FacePattern) {
    var c, m := p.clockwise, IndexMap(p.affected);
    FourFaces(c) && p.counterClockwise == [c[0], c[3], c[2], c[1]] &&
    p.rotating != c[0] && p.rotating != c[1] && p.rotating != c[2] && p.rotating != c[3] &&
    c[0] in m && c[1] in m && c[2] in m && c[3] in m &&
    IndicesOk(m[c[0]]) && IndicesOk(m[c[1]]) && IndicesOk(m[c[2]]) && IndicesOk(m[c[3]])
  }

  /** Every face named in the list is a key of IndexMap, and every value is some
      entry's index list. */
  lemma {:induction false} IndexMapOk(a: seq<AffectedFace>)
    requires forall i :: 0 <= i < |a| ==> IndicesOk(a[i].indices)
    ensures forall i :: 0 <= i < |a| ==> a[i].face in IndexMap(a)
    ensures forall f :: f in IndexMap(a) ==> IndicesOk(IndexMap(a)[f])
  {
    if |a| > 0 {
      IndexMapOk(a[..|a| - 1]);
    }
  }

  /** A pattern whose four entries list the faces of one of its cycles in order is
      well formed once its index lists and its cycles have the right shape. */
  lemma WellFormedByParts(p: FacePattern)
    requires |p.affected| == 4
    requires IndicesOk(p.affected[0].indices) && IndicesOk(p.affected[1].indices) &&
             IndicesOk(p.affected[2].indices) && IndicesOk(p.affected[3].indices)
    requires |p.clockwise| == 4 && p.rotating !in p.clockwise
    requires p.clockwise[0] != p.clockwise[1] && p.clockwise[0] != p.clockwise[2] && p.clockwise[0] != p.clockwise[3] &&
             p.clockwise[1] != p.clockwise[2] && p.clockwise[1] != p.clockwise[3] && p.clockwise[2] != p.clockwise[3]
    requires p.counterClockwise == [p.clockwise[0], p.clockwise[3], p.clockwise[2], p.clockwise[1]]
    requires (forall j :: 0 <= j < 4 ==> p.affected[j].face == p.clockwise[j]) ||
             (forall j :: 0 <= j < 4 ==> p.affected[j].face == p.counterClockwise[j])
    ensures WellFormed(p)
  {
    IndexMapOk(p.affected);
  }

  /** A pattern of the shape above: what a layer turn is defined over. */
  type Layer = p: FacePattern | WellFormed(p) witness (RightPatternWellFormed(); Pattern(R))

  // One lemma per entry of the table keeps each concrete check small.
  lemma RightPatternWellFormed() ensures WellFormed(Pattern(R)) { WellFormedByParts(Pattern(R)); }
  lemma LeftPatternWellFormed() ensures WellFormed(Pattern(L)) { WellFormedByParts(Pattern(L)); }
  lemma UpPatternWellFormed() ensures WellFormed(Pattern(U)) { WellFormedByParts(Pattern(U)); }
  lemma DownPatternWellFormed() ensures WellFormed(Pattern(D)) { WellFormedByParts(Pattern(D)); }
  lemma FrontPatternWellFormed() ensures WellFormed(Pattern(F)) { WellFormedByParts(Pattern(F)); }
  lemma BackPatternWellFormed() ensures WellFormed(Pattern(B)) { WellFormedByParts(Pattern(B)); }

  /** Every entry of FACE_PATTERNS is well formed. */
  lemma PatternsWellFormed(k: FaceKey)
    ensures WellFormed(Pattern(k))
  {
    match k
    case R => RightPatternWellFormed();
    case L => LeftPatternWellFormed();
    case U => UpPatternWellFormed();
    case D => DownPatternWellFormed();
    case F => FrontPatternWellFormed();
    case B => BackPatternWellFormed();
  }

  // ---------------------------------------------------------------------------
  // One quarter turn (rotateAnyFace), as a specification

  /** A sticker: a face and a position 0..8 on it. */
  datatype Pos = Pos(face: FaceName, index: nat)

  function At(s: CubeState, x: Pos): Color
    requires Shaped(s) && x.index < 9
  {
    Get(s, x.face)[x.index]
  }

  /** Both cycles of a well-formed pattern are four different faces, the same four,
      none of them the turning face, each with a good index list. */
  lemma CycleShape(p: Layer, clockwise: bool)
    ensures FourFaces(Cycle(p, clockwise))
    ensures forall f :: f in Cycle(p, clockwise) <==> f in p.clockwise
    ensures p.rotating !in Cycle(p, clockwise)
    ensures forall f :: f in Cycle(p, clockwise) ==> f in IndexMap(p.affected) && IndicesOk(IndexMap(p.affected)[f])
  {
  }

  /** The index list of the i-th face of the cycle (faceIndicesMap.get). */
  function CycleIndices(p: Layer, clockwise: bool, i: nat): (ix: seq<nat>)
    requires i < 4
    ensures IndicesOk(ix)
    ensures Cycle(p, clockwise)[i] in IndexMap(p.affected) && ix == IndexMap(p.affected)[Cycle(p, clockwise)[i]]
  {
    CycleShape(p, clockwise);
    IndexMap(p.affected)[Cycle(p, clockwise)[i]]
  }

  /** The step after the i-th face of one cycle, taken back along the other cycle,
      returns to the i-th face. */
  lemma CycleOpposite(p: Layer, clockwise: bool, i: nat)
    requires i < 4
    ensures var sq, rq := Cycle(p, clockwise), Cycle(p, !clockwise);
            sq[Next(i)] in rq && rq[Next(Rank(rq, sq[Next(i)]))] == sq[i]
  {
    CycleShape(p, clockwise);
    CycleShape(p, !clockwise);
  }

  /** The face after the i-th in a cycle of four. */
  function Next(i: nat): (n: nat)
    requires i < 4
    ensures n < 4 && (i < 3 ==> n == i + 1) && (i == 3 ==> n == 0)
  {
    if i == 3 then 0 else i + 1
  }

  /** Where the sticker that ends up at x comes from: the turning face takes its own
      stickers through rotateFace; the i-th face of the cycle takes, at the j-th of
      its indices, the sticker at the j-th index of face i + 1 (the last face takes
      from the first); every other sticker stays. */
  function SourceOf(p: Layer, clockwise: bool, x: Pos): (y: Pos)
    requires x.index < 9
    ensures y.index < 9
  {
    var sq := Cycle(p, clockwise);
    if x.face == p.rotating then
      Pos(x.face, RotationSource(clockwise)[x.index])
    else if x.face in sq && x.index in CycleIndices(p, clockwise, Rank(sq, x.face)) then
      var i := Rank(sq, x.face);
      var n := Next(i);
      Pos(sq[n], CycleIndices(p, clockwise, n)[Slot(CycleIndices(p, clockwise, i), x.index)])
    else
      x
  }

  /** Turning one way and then the other puts every sticker back. */
  lemma SourceInverse(p: Layer, clockwise: bool, x: Pos)
    requires x.index < 9
    ensures SourceOf(p, !clockwise, SourceOf(p, clockwise, x)) == x
  {
    var sq, rq := Cycle(p, clockwise), Cycle(p, !clockwise);
    CycleShape(p, clockwise);
    CycleShape(p, !clockwise);
    if x.face == p.rotating {
      RotationSourceInverse(!clockwise, x.index);
    } else if x.face in sq && x.index in CycleIndices(p, clockwise, Rank(sq, x.face)) {
      var i := Rank(sq, x.face);
      var n := Next(i);
      var j := Slot(CycleIndices(p, clockwise, i), x.index);
      CycleOpposite(p, clockwise, i);
      var k := Rank(rq, sq[n]);
      assert CycleIndices(p, !clockwise, k) == CycleIndices(p, clockwise, n);
      assert CycleIndices(p, !clockwise, Next(k)) == CycleIndices(p, clockwise, i);
    } else if x.face in sq {
      assert CycleIndices(p, !clockwise, Rank(rq, x.face)) == CycleIndices(p, clockwise, Rank(sq, x.face));
    }
  }

  /** One face after the turn: each sticker read from where SourceOf says. */
  function TurnedFace(s: CubeState, p: Layer, clockwise: bool, f: FaceName): (r: seq<Color>)
    requires Shaped(s)
    ensures |r| == 9 && forall t :: 0 <= t < 9 ==> r[t] == At(s, SourceOf(p, clockwise, Pos(f, t)))
  {
    seq(9, t requires 0 <= t < 9 => At(s, SourceOf(p, clockwise, Pos(f, t))))
  }

  /** The state after turning the layer of pattern p. */
  function Turned(s: CubeState, p: Layer, clockwise: bool): (r: CubeState)
    requires Shaped(s)
    ensures Shaped(r)
  {
    CubeState(TurnedFace(s, p, clockwise, Front), TurnedFace(s, p, clockwise, Back),
              TurnedFace(s, p, clockwise, Right), TurnedFace(s, p, clockwise, Left),
              TurnedFace(s, p, clockwise, Top), TurnedFace(s, p, clockwise, Bottom))
  }

  /** Two shaped states showing the same colour at every sticker are equal. */
  lemma StickersExt(a: CubeState, b: CubeState)
    requires Shaped(a) && Shaped(b)
    requires forall x: Pos :: x.index < 9 ==> At(a, x) == At(b, x)
    ensures a == b
  {
    forall f ensures Get(a, f) == Get(b, f) {
      forall t | 0 <= t < 9 ensures Get(a, f)[t] == Get(b, f)[t] {
        assert At(a, Pos(f, t)) == At(b, Pos(f, t));
      }
    }
    StateExt(a, b);
  }

  /** Each sticker of the turned state, read back from the state before. */
  lemma TurnedAt(s: CubeState, p: Layer, clockwise: bool, x: Pos)
    requires Shaped(s) && x.index < 9
    ensures At(Turned(s, p, clockwise), x) == At(s, SourceOf(p, clockwise, x))
  {
    GetTurned(s, p, clockwise, x.face);
    assert Pos(x.face, x.index) == x;
  }

  /** A turn one way followed by a turn the other way restores the state. */
  lemma TurnInverse(s: CubeState, p: Layer, clockwise: bool)
    requires Shaped(s)
    ensures Turned(Turned(s, p, clockwise), p, !clockwise) == s
  {
    var r1 := Turned(s, p, clockwise);
    var r2 := Turned(r1, p, !clockwise);
    forall x: Pos | x.index < 9 ensures At(r2, x) == At(s, x) {
      TurnedAt(r1, p, !clockwise, x);
      TurnedAt(s, p, clockwise, SourceOf(p, !clockwise, x));
      SourceInverse(p, !clockwise, x);
    }
    StickersExt(r2, s);
  }

  /** Each face of the turned state is its TurnedFace. */
  lemma GetTurned(s: CubeState, p: Layer, clockwise: bool, f: FaceName)
    requires Shaped(s)
    ensures Get(Turned(s, p, clockwise), f) == TurnedFace(s, p, clockwise, f)
  {
  }

  /** The turning face is turned by rotateFace. */
  lemma TurnRotatesFace(s: CubeState, p: Layer, clockwise: bool)
    requires Shaped(s)
    ensures Get(Turned(s, p, clockwise), p.rotating) == RotateFace(Get(s, p.rotating), clockwise)
  {
    var a, b := Get(Turned(s, p, clockwise), p.rotating), RotateFace(Get(s, p.rotating), clockwise);
    forall t | 0 <= t < 9 ensures a[t] == b[t] {
      TurnedAt(s, p, clockwise, Pos(p.rotating, t));
    }
    SeqExt(a, b);
  }

  lemma SeqExt<T>(a: seq<T>, b: seq<T>)
    requires |a| == |b| && forall i :: 0 <= i < |a| ==> a[i] == b[i]
    ensures a == b
  {
  }

  /** On the i-th face of the cycle, the j-th listed sticker comes from the j-th
      listed sticker of the next face. */
  lemma SourceAt(p: Layer, clockwise: bool, i: nat, j: nat)
    requires i < 4 && j < 3
    ensures SourceOf(p, clockwise, Pos(Cycle(p, clockwise)[i], CycleIndices(p, clockwise, i)[j]))
         == Pos(Cycle(p, clockwise)[Next(i)], CycleIndices(p, clockwise, Next(i))[j])
  {
    CycleShape(p, clockwise);
    RankAt(Cycle(p, clockwise), i);
    SlotAt(CycleIndices(p, clockwise, i), j);
  }

  /** Every sticker off the turning face and off the listed indices of the cycle
      faces keeps its colour; in particular the opposite face is untouched. */
  lemma TurnKeepsOthers(s: CubeState, p: Layer, clockwise: bool, x: Pos)
    requires Shaped(s) && x.index < 9
    requires x.face != p.rotating
    requires x.face !in p.clockwise || x.index !in IndexMap(p.affected)[x.face]
    ensures At(Turned(s, p, clockwise), x) == At(s, x)
  {
    CycleShape(p, clockwise);
    if x.face in p.clockwise {
      assert CycleIndices(p, clockwise, Rank(Cycle(p, clockwise), x.face)) == IndexMap(p.affected)[x.face];
    }
  }

  /** The quarter turn of the layer named by key k. */
  function Turn(s: CubeState, k: FaceKey, clockwise: bool): (r: CubeState)
    requires Shaped(s)
    ensures Shaped(r)
  {
    PatternsWellFormed(k);
    Turned(s, Pattern(k), clockwise)
  }

  /** Four quarter turns of the face stickers come back to the start. */
  lemma RotationSourceOrderFour(clockwise: bool, t: nat)
    requires t < 9
    ensures var rs := RotationSource(clockwise); rs[rs[rs[rs[t]]]] == t
  {
    assert t == 0 || t == 1 || t == 2 || t == 3 || t == 4 || t == 5 || t == 6 || t == 7 || t == 8;
  }

  /** Following SourceOf four times returns to the starting sticker. */
  lemma SourceOrderFour(p: Layer, clockwise: bool, x: Pos)
    requires x.index < 9
    ensures var x1 := SourceOf(p, clockwise, x); var x2 := SourceOf(p, clockwise, x1);
            var x3 := SourceOf(p, clockwise, x2); SourceOf(p, clockwise, x3) == x
  {
    var sq := Cycle(p, clockwise);
    CycleShape(p, clockwise);
    if x.face == p.rotating {
      RotationSourceOrderFour(clockwise, x.index);
    } else if x.face in sq && x.index in CycleIndices(p, clockwise, Rank(sq, x.face)) {
      var i := Rank(sq, x.face);
      var j := Slot(CycleIndices(p, clockwise, i), x.index);
      assert x == Pos(sq[i], CycleIndices(p, clockwise, i)[j]);
      SourceAt(p, clockwise, i, j);
      SourceAt(p, clockwise, Next(i), j);
      SourceAt(p, clockwise, Next(Next(i)), j);
      SourceAt(p, clockwise, Next(Next(Next(i))), j);
    }
  }

  /** Four quarter turns of the same layer in the same direction restore the state. */
  lemma TurnOrderFour(s: CubeState, p: Layer, clockwise: bool)
    requires Shaped(s)
    ensures Turned(Turned(Turned(Turned(s, p, clockwise), p, clockwise), p, clockwise), p, clockwise) == s
  {
    var r1 := Turned(s, p, clockwise);
    var r2 := Turned(r1, p, clockwise);
    var r3 := Turned(r2, p, clockwise);
    var r4 := Turned(r3, p, clockwise);
    forall x: Pos | x.index < 9 ensures At(r4, x) == At(s, x) {
      var x1 := SourceOf(p, clockwise, x);
      var x2 := SourceOf(p, clockwise, x1);
      var x3 := SourceOf(p, clockwise, x2);
      TurnedAt(r3, p, clockwise, x);
      TurnedAt(r2, p, clockwise, x1);
      TurnedAt(r1, p, clockwise, x2);
      TurnedAt(s, p, clockwise, x3);
      SourceOrderFour(p, clockwise, x);
    }
    StickersExt(r4, s);
  }

  // ---------------------------------------------------------------------------
  // Colour counts

  /** All 54 sticker positions. */
  function Positions(): set<Pos> {
    set f: FaceName, t: nat | f in Faces && t < 9 :: Pos(f, t)
  }

  lemma InPositions(x: Pos)
    ensures x in Positions() <==> x.index < 9
  {
    FacesComplete(x.face);
    if x.index < 9 {
      assert Pos(x.face, x.index) == x;
    }
  }

  /** The positions showing colour c. */
  ghost function Where(s: CubeState, c: Color): set<Pos>
    requires Shaped(s)
  {
    set x | x in Positions() && At(s, x) == c
  }

  /** How many stickers of the state show colour c. */
  ghost function ColourCount(s: CubeState, c: Color): nat
    requires Shaped(s)
  {
    |Where(s, c)|
  }

  /** The image of a set of positions under SourceOf. */
  ghost function Sources(S: set<Pos>, p: Layer, clockwise: bool): set<Pos>
    requires forall x | x in S :: x.index < 9
  {
    set x | x in S :: SourceOf(p, clockwise, x)
  }

  /** SourceOf is one-to-one, so it keeps the size of every set of positions. */
  lemma {:induction false} SourcesCard(S: set<Pos>, p: Layer, clockwise: bool)
    requires forall x | x in S :: x.index < 9
    ensures |Sources(S, p, clockwise)| == |S|
  {
    if S != {} {
      var e :| e in S;
      var rest := S - {e};
      SourcesCard(rest, p, clockwise);
      forall y | y in rest ensures SourceOf(p, clockwise, y) != SourceOf(p, clockwise, e) {
        SourceInverse(p, clockwise, y);
        SourceInverse(p, clockwise, e);
      }
      assert Sources(S, p, clockwise) == Sources(rest, p, clockwise) + {SourceOf(p, clockwise, e)};
    }
  }

  /** After a turn, colour c shows exactly where the inverse turn sends the stickers
      that showed c before. */
  lemma WhereTurned(s: CubeState, p: Layer, clockwise: bool, c: Color)
    requires Shaped(s)
    ensures forall x | x in Where(s, c) :: x.index < 9
    ensures Where(Turned(s, p, clockwise), c) == Sources(Where(s, c), p, !clockwise)
  {
    var r := Turned(s, p, clockwise);
    forall x | x in Where(s, c) ensures x.index < 9 {
      InPositions(x);
    }
    forall x | x in Where(r, c) ensures x in Sources(Where(s, c), p, !clockwise) {
      InPositions(x);
      var y := SourceOf(p, clockwise, x);
      TurnedAt(s, p, clockwise, x);
      InPositions(y);
      SourceInverse(p, clockwise, x);
    }
    forall x | x in Sources(Where(s, c), p, !clockwise) ensures x in Where(r, c) {
      var y :| y in Where(s, c) && x == SourceOf(p, !clockwise, y);
      InPositions(y);
      InPositions(x);
      SourceInverse(p, !clockwise, y);
      TurnedAt(s, p, clockwise, x);
    }
  }

  /** A turn is a permutation of the stickers: every colour shows as often after it
      as before. */
  lemma TurnKeepsColourCounts(s: CubeState, p: Layer, clockwise: bool, c: Color)
    requires Shaped(s)
    ensures ColourCount(Turned(s, p, clockwise), c) == ColourCount(s, c)
  {
    WhereTurned(s, p, clockwise, c);
    SourcesCard(Where(s, c), p, !clockwise);
  }

  /** The nine positions of face f. */
  function FacePositions(f: FaceName): (w: set<Pos>)
    ensures forall x :: x in w <==> x.face == f && x.index < 9
  {
    set t: nat | t < 9 :: Pos(f, t)
  }

  lemma FacePositionsCard(f: FaceName)
    ensures |FacePositions(f)| == 9
  {
    assert FacePositions(f) == {Pos(f, 0), Pos(f, 1), Pos(f, 2), Pos(f, 3), Pos(f, 4), Pos(f, 5), Pos(f, 6), Pos(f, 7), Pos(f, 8)};
  }

  /** The key whose face is f. */
  function KeyOfFace(f: FaceName): (k: FaceKey)
    ensures FaceOf(k) == f
  {
    match f
    case Front => F case Back => B case Right => R case Left => L case Top => U case Bottom => D
  }

  /** The initial state shows nine stickers of each face colour. */
  lemma InitialColourCount(k: FaceKey)
    ensures Shaped(Initial) && ColourCount(Initial, ColorOf(k)) == 9
  {
    InitialFaces(k);
    var w := FacePositions(FaceOf(k));
    forall x | x in Where(Initial, ColorOf(k)) ensures x in w {
      InPositions(x);
      InitialFaces(KeyOfFace(x.face));
      ColorsDistinct(k, KeyOfFace(x.face));
    }
    forall x | x in w ensures x in Where(Initial, ColorOf(k)) {
      InPositions(x);
    }
    assert Where(Initial, ColorOf(k)) == w;
    FacePositionsCard(FaceOf(k));
  }

  // ---------------------------------------------------------------------------
  // rotateAnyFace, step by step

  /** newState[f][t] = c */
  function SetSticker(s: CubeState, f: FaceName, t: nat, c: Color): (r: CubeState)
    requires Shaped(s) && t < 9
    ensures Shaped(r)
  {
    With(s, f, Get(s, f)[t := c])
  }

  /** Setting one sticker changes that sticker and no other. */
  lemma SetStickerAt(s: CubeState, f: FaceName, t: nat, c: Color, x: Pos)
    requires Shaped(s) && t < 9 && x.index < 9
    ensures At(SetSticker(s, f, t, c), x) == if x == Pos(f, t) then c else At(s, x)
  {
  }

  /** The stickers rotateAnyFace has written once it has turned the rotating face,
      finished the first i faces of the cycle and the first j indices of face i. */
  ghost predicate Written(p: Layer, clockwise: bool, i: nat, j: nat, x: Pos)
    requires j <= 3
  {
    var sq := Cycle(p, clockwise);
    x.face == p.rotating ||
    (x.face in sq && x.index in CycleIndices(p, clockwise, Rank(sq, x.face)) &&
     (Rank(sq, x.face) < i || (Rank(sq, x.face) == i && x.index in CycleIndices(p, clockwise, i)[..j])))
  }

  /** The copy ns holds turned stickers where rotateAnyFace has written, and the
      input's stickers everywhere else. */
  ghost predicate Partial(ns: CubeState, state: CubeState, p: Layer, clockwise: bool, i: nat, j: nat)
    requires j <= 3
  {
    Shaped(ns) && Shaped(state) &&
    forall x: Pos {:trigger At(ns, x)} :: x.index < 9 ==>
      At(ns, x) == if Written(p, clockwise, i, j, x) then At(state, SourceOf(p, clockwise, x)) else At(state, x)
  }

  /** After the rotating face is written. */
  lemma PartialStart(state: CubeState, p: Layer, clockwise: bool)
    requires Shaped(state)
    ensures Partial(With(state, p.rotating, RotateFace(Get(state, p.rotating), clockwise)), state, p, clockwise, 0, 0)
  {
  }

  /** After the j-th listed sticker of the i-th cycle face, exactly that sticker
      joins the written ones. */
  lemma WrittenStep(p: Layer, clockwise: bool, i: nat, j: nat, x: Pos)
    requires i < 4 && j < 3 && x.index < 9
    ensures Written(p, clockwise, i, j + 1, x) <==>
            Written(p, clockwise, i, j, x) || x == Pos(Cycle(p, clockwise)[i], CycleIndices(p, clockwise, i)[j])
  {
    var sq, ix := Cycle(p, clockwise), CycleIndices(p, clockwise, i);
    CycleShape(p, clockwise);
    RankAt(sq, i);
    assert ix[..j + 1] == ix[..j] + [ix[j]];
  }

  /** Writing the j-th listed sticker of the i-th cycle face. */
  lemma PartialStep(ns: CubeState, state: CubeState, p: Layer, clockwise: bool, i: nat, j: nat,
                    f: FaceName, t: nat, c: Color)
    requires i < 4 && j < 3 && Partial(ns, state, p, clockwise, i, j)
    requires f == Cycle(p, clockwise)[i] && t == CycleIndices(p, clockwise, i)[j]
    requires c == At(state, Pos(Cycle(p, clockwise)[Next(i)], CycleIndices(p, clockwise, Next(i))[j]))
    ensures Partial(SetSticker(ns, f, t, c), state, p, clockwise, i, j + 1)
  {
    var r := SetSticker(ns, f, t, c);
    SourceAt(p, clockwise, i, j);
    forall x: Pos | x.index < 9
      ensures At(r, x) == if Written(p, clockwise, i, j + 1, x) then At(state, SourceOf(p, clockwise, x)) else At(state, x)
    {
      SetStickerAt(ns, f, t, c, x);
      WrittenStep(p, clockwise, i, j, x);
    }
  }

  /** Moving on from a finished face of the cycle to the next one. */
  lemma PartialNextFace(ns: CubeState, state: CubeState, p: Layer, clockwise: bool, i: nat)
    requires i < 4 && Partial(ns, state, p, clockwise, i, 3)
    ensures Partial(ns, state, p, clockwise, i + 1, 0)
  {
    var ix := CycleIndices(p, clockwise, i);
    assert ix[..3] == ix;
    forall x: Pos | x.index < 9
      ensures Written(p, clockwise, i + 1, 0, x) <==> Written(p, clockwise, i, 3, x)
    {
    }
  }

  /** With every face of the cycle done, a sticker not written is one that stays. */
  lemma UnwrittenStays(p: Layer, clockwise: bool, x: Pos)
    requires x.index < 9
    ensures Written(p, clockwise, 4, 0, x) || SourceOf(p, clockwise, x) == x
  {
  }

  /** Once every face of the cycle is written, the copy is the turned state. */
  lemma PartialDone(ns: CubeState, state: CubeState, p: Layer, clockwise: bool)
    requires Partial(ns, state, p, clockwise, 4, 0)
    ensures ns == Turned(state, p, clockwise)
  {
    var r := Turned(state, p, clockwise);
    forall x: Pos | x.index < 9 ensures At(ns, x) == At(r, x) {
      TurnedAt(state, p, clockwise, x);
      UnwrittenStays(p, clockwise, x);
    }
    StickersExt(ns, r);
  }

  /** faceIndicesMap: the index list of each affected face, a later entry for the
      same face replacing an earlier one. */
  method BuildIndexMap(affected: seq<AffectedFace>) returns (m: map<FaceName, seq<nat>>)
    ensures m == IndexMap(affected)
  {
    m := map[];
    for a := 0 to |affected|
      invariant m == IndexMap(affected[..a])
    {
      assert affected[..a + 1][..a] == affected[..a];
      m := m[affected[a].face := affected[a].indices];
    }
    assert affected[..|affected|] == affected;
  }

  /** One pass of the loop over the cycle in rotateAnyFace: face i takes, index by
      index, the stickers of face i + 1 as they were before the turn. */
  method ShiftFace(ns: CubeState, state: CubeState, p: Layer, clockwise: bool, i: nat,
                   sq: seq<FaceName>, m: map<FaceName, seq<nat>>) returns (r: CubeState)
    requires i < 3 && Partial(ns, state, p, clockwise, i, 0)
    requires sq == Cycle(p, clockwise) && m == IndexMap(p.affected)
    ensures Partial(r, state, p, clockwise, i + 1, 0)
  {
    var currentFace, nextFace := sq[i], sq[i + 1];
    assert CycleIndices(p, clockwise, i) == m[currentFace];
    assert CycleIndices(p, clockwise, i + 1) == m[nextFace];
    var currentIndices, nextIndices := m[currentFace], m[nextFace];
    r := ns;
    for j := 0 to |currentIndices|
      invariant Shaped(r)
      invariant Partial(r, state, p, clockwise, i, j)
    {
      ghost var before := r;
      r := SetSticker(r, currentFace, currentIndices[j], Get(state, nextFace)[nextIndices[j]]);
      PartialStep(before, state, p, clockwise, i, j, currentFace, currentIndices[j], Get(state, nextFace)[nextIndices[j]]);
    }
    PartialNextFace(r, state, p, clockwise, i);
  }

  /** The last face of the cycle takes the first face's stickers, saved in temp
      before the first face was overwritten. */
  method ShiftLastFace(ns: CubeState, state: CubeState, p: Layer, clockwise: bool,
                       sq: seq<FaceName>, m: map<FaceName, seq<nat>>, temp: seq<Color>) returns (r: CubeState)
    requires Partial(ns, state, p, clockwise, 3, 0)
    requires sq == Cycle(p, clockwise) && m == IndexMap(p.affected)
    requires |temp| == 3 && forall k :: 0 <= k < 3 ==> temp[k] == At(state, Pos(sq[0], CycleIndices(p, clockwise, 0)[k]))
    ensures Partial(r, state, p, clockwise, 4, 0)
  {
    var lastFace := sq[|sq| - 1];
    assert CycleIndices(p, clockwise, 3) == m[lastFace];
    var lastIndices := m[lastFace];
    r := ns;
    for j := 0 to |lastIndices|
      invariant Shaped(r)
      invariant Partial(r, state, p, clockwise, 3, j)
    {
      ghost var before := r;
      r := SetSticker(r, lastFace, lastIndices[j], temp[j]);
      PartialStep(before, state, p, clockwise, 3, j, lastFace, lastIndices[j], temp[j]);
    }
    PartialNextFace(r, state, p, clockwise, 3);
  }

  /** The body of rotateAnyFace once the pattern is found: the result is the quarter
      turn of the layer. The input is a value and is never changed; every sticker
      written into the copy is read from the input. */
  method RotateLayer(state: CubeState, p: Layer, clockwise: bool) returns (r: CubeState)
    requires Shaped(state)
    ensures r == Turned(state, p, clockwise)
  {
    var ns := With(state, p.rotating, RotateFace(Get(state, p.rotating), clockwise));
    PartialStart(state, p, clockwise);
    var sq := if clockwise then p.clockwise else p.counterClockwise;
    assert sq == Cycle(p, clockwise);
    var m := BuildIndexMap(p.affected);

    var firstFace := sq[0];
    assert CycleIndices(p, clockwise, 0) == m[firstFace];
    var firstIndices := m[firstFace];
    var temp := seq(|firstIndices|, k requires 0 <= k < |firstIndices| => Get(state, firstFace)[firstIndices[k]]);

    for i := 0 to |sq| - 1
      invariant Partial(ns, state, p, clockwise, i, 0)
    {
      ns := ShiftFace(ns, state, p, clockwise, i, sq, m);
    }
    ns := ShiftLastFace(ns, state, p, clockwise, sq, m, temp);
    PartialDone(ns, state, p, clockwise);
    r := ns;
  }

  /** rotateAnyFace: an unknown key leaves the state as it is; otherwise the result
      is the quarter turn of that layer. */
  method RotateAnyFace(state: CubeState, face: string, clockwise: bool) returns (r: CubeState)
    requires Shaped(state)
    ensures KeyOf(face).None? ==> r == state
    ensures KeyOf(face).Some? ==> r == Turn(state, KeyOf(face).value, clockwise)
  {
    var pattern := PatternFor(face);
    if pattern.None? {
      return state;
    }
    PatternsWellFormed(KeyOf(face).value);
    r := RotateLayer(state, pattern.value, clockwise);
  }
}
