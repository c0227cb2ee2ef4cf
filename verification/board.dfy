/** The static board of pystars: nine named stars and the four winning lines. */
module Board {

  /** The nine named stars of `Game.stars`: the centre and eight ring points. */
  datatype Position =
    | Center
    | TopLeft
    | TopRight
    | RightUpper
    | RightLower
    | BottomRight
    | BottomLeft
    | LeftLower
    | LeftUpper

  /** The stars in the order `Game.stars` lists them; the slot table is indexed by it. */
  const Stars: seq<Position> :=
    [Center, TopLeft, TopRight, RightUpper, RightLower, BottomRight, BottomLeft, LeftLower, LeftUpper]

  /** Where a star stands in `Stars`. */
  function StarIndex(p: Position): (i: int)
    ensures 0 <= i < |Stars| && Stars[i] == p
  {
    match p
    case Center => 0
    case TopLeft => 1
    case TopRight => 2
    case RightUpper => 3
    case RightLower => 4
    case BottomRight => 5
    case BottomLeft => 6
    case LeftLower => 7
    case LeftUpper => 8
  }

  /** The eight ring points in clockwise order, starting at `top_right`, as their
      screen coordinates lay them out around the centre. */
  const Ring: seq<Position> :=
    [TopRight, RightUpper, RightLower, BottomRight, BottomLeft, LeftLower, LeftUpper, TopLeft]

  /** Where a ring point stands in the clockwise order. */
  function RingIndex(p: Position): (i: int)
    requires p != Center
    ensures 0 <= i < |Ring| && Ring[i] == p
  {
    match p
    case TopRight => 0
    case RightUpper => 1
    case RightLower => 2
    case BottomRight => 3
    case BottomLeft => 4
    case LeftLower => 5
    case LeftUpper => 6
    case TopLeft => 7
    case Center => assert false; 0
  }

  /** The ring point diametrically across the centre from `p`. */
  function Opposite(p: Position): (q: Position)
    requires p != Center
    ensures q != Center && q != p
  {
    Ring[(RingIndex(p) + 4) % 8]
  }

  /** A winning line as listed in `Game.winners`: two ring ends and the middle star. */
  datatype Triad = Triad(first: Position, middle: Position, last: Position)

  /** The four winning lines of `Game.winners`, in the source's order. */
  const Winners: seq<Triad> := [
    Triad(TopLeft, Center, BottomRight),
    Triad(TopRight, Center, BottomLeft),
    Triad(RightUpper, Center, LeftLower),
    Triad(RightLower, Center, LeftUpper)
  ]

  /** The stars a line is made of, order forgotten. */
  function Members(t: Triad): set<Position> {
    {t.first, t.middle, t.last}
  }

  /** True when the stars in `s` are exactly one of the winning lines. */
  predicate IsWinningLine(s: set<Position>) {
    exists i :: 0 <= i < |Winners| && s == Members(Winners[i])
  }

  /** Opposition on the ring is a fixed-point-free involution. */
  lemma OppositeInvolution(p: Position)
    requires p != Center
    ensures Opposite(Opposite(p)) == p
  {
  }

  /** The table holds four lines, each the centre in the middle of two
      opposite ring points, so each line has exactly three distinct stars. */
  lemma WinnersShape()
    ensures |Winners| == 4
    ensures forall i :: 0 <= i < |Winners| ==>
              && Winners[i].middle == Center
              && Winners[i].first != Center
              && Winners[i].last == Opposite(Winners[i].first)
              && |Members(Winners[i])| == 3
  {
    forall i | 0 <= i < |Winners|
      ensures |Members(Winners[i])| == 3
    {
      var t := Winners[i];
      assert Members(t) == {t.first} + {t.middle} + {t.last};
    }
  }

  /** The line a ring point lies on: its index in the table. */
  function LineOf(p: Position): (i: int)
    requires p != Center
    ensures 0 <= i < |Winners| && p in Members(Winners[i])
    ensures forall j :: 0 <= j < |Winners| && p in Members(Winners[j]) ==> j == i
  {
    match p
    case TopLeft => 0
    case BottomRight => 0
    case TopRight => 1
    case BottomLeft => 1
    case RightUpper => 2
    case LeftLower => 2
    case RightLower => 3
    case LeftUpper => 3
    case Center => assert false; 0
  }

  /** Every line of the table is the centre, a ring point and its opposite. */
  lemma LineIsOppositePair(i: nat)
    requires i < |Winners|
    ensures Winners[i].first != Center
    ensures Members(Winners[i]) == {Center, Winners[i].first, Opposite(Winners[i].first)}
  {
  }

  /** The centre, a ring point and its opposite form the line `LineOf` names. */
  lemma OppositePairIsLine(p: Position)
    requires p != Center
    ensures {Center, p, Opposite(p)} == Members(Winners[LineOf(p)])
  {
  }

  /** A set of stars is a winning line exactly when it is the centre together
      with some ring point and the point opposite it: the table and the
      geometric description agree. */
  lemma {:induction false} WinningLineIffOppositePair(s: set<Position>)
    ensures IsWinningLine(s) <==>
            exists p :: p != Center && s == {Center, p, Opposite(p)}
  {
    if IsWinningLine(s) {
      var i :| 0 <= i < |Winners| && s == Members(Winners[i]);
      LineIsOppositePair(i);
      var p := Winners[i].first;
      assert p != Center && s == {Center, p, Opposite(p)};
    }
    if p :| p != Center && s == {Center, p, Opposite(p)} {
      OppositePairIsLine(p);
      assert s == Members(Winners[LineOf(p)]);
    }
  }
}
