/** The two games of the test suite, played click by click from the start. */
module Scenarios {
  import opened Wrappers
  import opened Board
  import opened Players
  import opened Tokens
  import opened Games
  import opened Wins

  /** Select a player's token at its home spot, then click a star. */
  function Turn(g: Game, t: TokenId, p: Position): Game {
    Step(Step(g, OnToken(t)), OnStar(p))
  }

  /** One select-then-place turn moves that token and nothing else, and passes the turn. */
  lemma TurnMoves(g: Game, t: TokenId, p: Position)
    requires t.owner == g.player
    ensures At(Turn(g, t, p).tokens, t) == TokenState(Star(p), false, true)
    ensures forall u :: u != t ==> At(Turn(g, t, p).tokens, u).place == At(g.tokens, u).place
    ensures Turn(g, t, p).player == Other(g.player)
    ensures Turn(g, t, p).active == None
  {
  }

  /** The game of `test_winner`, from a fresh start such as `Init()`: BLUE
      fills bottom_left, center and top_right while GREEN takes right_lower
      and right_upper; BLUE wins and GREEN, with a token still at home, does not. */
  lemma WinnerGame(start: Game)
    requires start.player == Blue
    requires forall t :: At(start.tokens, t).place == Home
    ensures
      var g := Turn(Turn(Turn(Turn(Turn(start,
                 TokenId(Blue, First), BottomLeft),
                 TokenId(Green, First), RightLower),
                 TokenId(Blue, Second), Center),
                 TokenId(Green, Second), RightUpper),
                 TokenId(Blue, Third), TopRight);
      IsWinner(g, Blue) && !IsWinner(g, Green) && g.player == Green
  {
    var g0 := start;
    TurnMoves(g0, TokenId(Blue, First), BottomLeft);
    var g1 := Turn(g0, TokenId(Blue, First), BottomLeft);
    TurnMoves(g1, TokenId(Green, First), RightLower);
    var g2 := Turn(g1, TokenId(Green, First), RightLower);
    TurnMoves(g2, TokenId(Blue, Second), Center);
    var g3 := Turn(g2, TokenId(Blue, Second), Center);
    TurnMoves(g3, TokenId(Green, Second), RightUpper);
    var g4 := Turn(g3, TokenId(Green, Second), RightUpper);
    TurnMoves(g4, TokenId(Blue, Third), TopRight);
    var g5 := Turn(g4, TokenId(Blue, Third), TopRight);
    assert At(g5.tokens, TokenId(Blue, First)).place == Star(BottomLeft);
    assert At(g5.tokens, TokenId(Blue, Second)).place == Star(Center);
    assert At(g5.tokens, TokenId(Blue, Third)).place == Star(TopRight);
    assert At(g5.tokens, TokenId(Green, Third)).place == Home;
    assert PlacesOf(g5, Blue) == {Star(BottomLeft), Star(Center), Star(TopRight)};
    BlueDiagonalWins(g5);
    HomeTokenBarsWin(g5, TokenId(Green, Third));
  }

  /** A player with a token still at home has not won. */
  lemma HomeTokenBarsWin(g: Game, t: TokenId)
    requires At(g.tokens, t).place == Home
    ensures !IsWinner(g, t.owner)
  {
    if IsWinner(g, t.owner) {
      WinnerHasThreeOnBoard(g, t.owner);
    }
  }

  /** The game of `test_non_winner`, from a fresh start such as `Init()`:
      BLUE fills bottom_left, center and top_left, which is not a line, and
      GREEN still has a token at home, so nobody wins. */
  lemma NonWinnerGame(start: Game)
    requires start.player == Blue
    requires forall t :: At(start.tokens, t).place == Home
    ensures
      var g := Turn(Turn(Turn(Turn(Turn(start,
                 TokenId(Blue, First), BottomLeft),
                 TokenId(Green, First), RightLower),
                 TokenId(Blue, Second), Center),
                 TokenId(Green, Second), RightUpper),
                 TokenId(Blue, Third), TopLeft);
      !IsWinner(g, Blue) && !IsWinner(g, Green) && g.player == Green
  {
    var g0 := start;
    TurnMoves(g0, TokenId(Blue, First), BottomLeft);
    var g1 := Turn(g0, TokenId(Blue, First), BottomLeft);
    TurnMoves(g1, TokenId(Green, First), RightLower);
    var g2 := Turn(g1, TokenId(Green, First), RightLower);
    TurnMoves(g2, TokenId(Blue, Second), Center);
    var g3 := Turn(g2, TokenId(Blue, Second), Center);
    TurnMoves(g3, TokenId(Green, Second), RightUpper);
    var g4 := Turn(g3, TokenId(Green, Second), RightUpper);
    TurnMoves(g4, TokenId(Blue, Third), TopLeft);
    var g5 := Turn(g4, TokenId(Blue, Third), TopLeft);
    assert At(g5.tokens, TokenId(Blue, First)).place == Star(BottomLeft);
    assert At(g5.tokens, TokenId(Blue, Second)).place == Star(Center);
    assert At(g5.tokens, TokenId(Blue, Third)).place == Star(TopLeft);
    assert At(g5.tokens, TokenId(Green, Third)).place == Home;
    assert PlacesOf(g5, Blue) == {Star(BottomLeft), Star(Center), Star(TopLeft)};
    BlueBentLineLoses(g5);
    HomeTokenBarsWin(g5, TokenId(Green, Third));
  }

  /** Nobody has won at the start of a game. */
  lemma InitialNoWinner(c: Color)
    ensures !IsWinner(Init(), c)
  {
    HomeTokenBarsWin(Init(), TokenId(c, First));
  }

  /** After BLUE's first move the message hands the turn to GREEN by name. */
  lemma FirstMoveMessage()
    ensures Turn(Init(), TokenId(Blue, First), Center).message == "Token moved. GREEN's TURN"
  {
    assert Upper("green") == "GREEN";
  }

  /** GREEN cannot pick a token before BLUE has moved: only the message changes. */
  lemma GreenCannotOpen(t: TokenId)
    requires t.owner == Green
    ensures Step(Init(), OnToken(t)) == Init().(message := WrongTokenMessage)
  {
  }
}
