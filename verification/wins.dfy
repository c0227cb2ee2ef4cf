/** The win check: a player wins when their three tokens stand exactly on one
    of the winning lines of `Game.winners`. */
module Wins {
  import opened Board
  import opened Players
  import opened Tokens
  import opened Games
  import opened Turns

  /** Where a player's three tokens stand, order forgotten. */
  function PlacesOf(g: Game, c: Color): set<Place> {
    {At(g.tokens, TokenId(c, First)).place,
     At(g.tokens, TokenId(c, Second)).place,
     At(g.tokens, TokenId(c, Third)).place}
  }

  /** The places a winning line covers. */
  function LinePlaces(t: Triad): set<Place> {
    {Star(t.first), Star(t.middle), Star(t.last)}
  }

  /** True when player `c`'s tokens stand exactly on one of the lines of the table;
      a winner then has no token at home and one on the centre. */
  predicate IsWinner(g: Game, c: Color): (b: bool)
    ensures b ==> Home !in PlacesOf(g, c)
    ensures b ==> Star(Center) in PlacesOf(g, c)
  {
    exists i :: 0 <= i < |Winners| && PlacesOf(g, c) == LinePlaces(Winners[i])
  }

  /** Every line covers three different stars and nothing off the board. */
  lemma LinePlacesOnBoard(i: int)
    requires 0 <= i < |Winners|
    ensures forall x :: x in LinePlaces(Winners[i]) ==> x.Star?
    ensures |LinePlaces(Winners[i])| == 3
  {
    var w := Winners[i];
    assert w.first != w.middle && w.middle != w.last && w.first != w.last;
    assert LinePlaces(w) == {Star(w.first)} + {Star(w.middle)} + {Star(w.last)};
  }

  /** A winner's three tokens are all on the board, on three different stars,
      and under the invariant all three have been played. */
  lemma {:induction false} WinnerHasThreeOnBoard(g: Game, c: Color)
    requires IsWinner(g, c)
    ensures forall t: TokenId :: t.owner == c ==> At(g.tokens, t).place.Star?
    ensures |PlacesOf(g, c)| == 3
    ensures Inv(g) ==> forall t: TokenId :: t.owner == c ==> At(g.tokens, t).played
  {
    var i :| 0 <= i < |Winners| && PlacesOf(g, c) == LinePlaces(Winners[i]);
    LinePlacesOnBoard(i);
    forall t: TokenId | t.owner == c
      ensures At(g.tokens, t).place.Star?
    {
      assert t == TokenId(c, t.index);
      assert At(g.tokens, t).place in PlacesOf(g, c);
    }
  }

  /** The geometric reading of a win: a player wins exactly when their
      tokens stand on the centre, some ring point and the point opposite it. */
  lemma {:induction false} WinIffOppositePair(g: Game, c: Color)
    ensures IsWinner(g, c) <==>
            exists p :: p != Center && PlacesOf(g, c) == {Star(Center), Star(p), Star(Opposite(p))}
  {
    if IsWinner(g, c) {
      var i :| 0 <= i < |Winners| && PlacesOf(g, c) == LinePlaces(Winners[i]);
      LineIsOppositePair(i);
      var p := Winners[i].first;
      assert PlacesOf(g, c) == {Star(Center), Star(p), Star(Opposite(p))};
    }
    if p :| p != Center && PlacesOf(g, c) == {Star(Center), Star(p), Star(Opposite(p))} {
      OppositePairIsLine(p);
      var w := Winners[LineOf(p)];
      assert PlacesOf(g, c) == LinePlaces(w);
    }
  }

  /** BLUE on {bottom_left, center, top_right} wins. */
  lemma BlueDiagonalWins(g: Game)
    requires PlacesOf(g, Blue) == {Star(BottomLeft), Star(Center), Star(TopRight)}
    ensures IsWinner(g, Blue)
  {
    assert PlacesOf(g, Blue) == LinePlaces(Winners[1]);
  }

  /** BLUE on {bottom_left, center, top_left} does not win. */
  lemma BlueBentLineLoses(g: Game)
    requires PlacesOf(g, Blue) == {Star(BottomLeft), Star(Center), Star(TopLeft)}
    ensures !IsWinner(g, Blue)
  {
    forall i | 0 <= i < |Winners|
      ensures PlacesOf(g, Blue) != LinePlaces(Winners[i])
    {
      assert Star(Winners[i].last) in LinePlaces(Winners[i]);
    }
  }
}
