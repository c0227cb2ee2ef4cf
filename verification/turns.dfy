/** Invariants of the click state machine and what holds along any sequence of clicks. */
module Turns {
  import opened Wrappers
  import opened Board
  import opened Players
  import opened Tokens
  import opened Games

  /** A token is selected exactly when it is the active token. */
  ghost predicate SelectionMatchesActive(g: Game) {
    forall t :: At(g.tokens, t).selected <==> g.active == Some(t)
  }

  /** The active token, if any, belongs to the player to move. */
  ghost predicate ActiveIsMine(g: Game) {
    g.active.Some? ==> g.active.value.owner == g.player
  }

  /** A token has been played exactly when it stands on a star. */
  ghost predicate PlayedOnBoard(g: Game) {
    forall t :: At(g.tokens, t).played <==> At(g.tokens, t).place.Star?
  }

  /** A slot only ever records played tokens, and the star of every played
      token has a slot that records some token. */
  ghost predicate SlotsTrackPlays(g: Game) {
    && (forall p :: Occupant(g.slots, p).Some? ==> At(g.tokens, Occupant(g.slots, p).value).played)
    && (forall t :: At(g.tokens, t).place.Star? ==> Occupant(g.slots, At(g.tokens, t).place.pos).Some?)
  }

  /** The invariant every reachable state keeps. */
  ghost predicate Inv(g: Game) {
    SelectionMatchesActive(g) && ActiveIsMine(g) && PlayedOnBoard(g) && SlotsTrackPlays(g)
  }

  /** The starting position satisfies the invariant, and each player owns three
      tokens, none selected and none played. */
  lemma InitFacts()
    ensures Inv(Init())
    ensures Init().player == Blue && Init().active == None
    ensures forall c: Color :: |OwnedBy(c)| == 3
    ensures SelectedTokens(Init().tokens) == {}
    ensures forall t :: !At(Init().tokens, t).played
  {
    forall c: Color ensures |OwnedBy(c)| == 3 {
      OwnedByHasThree(c);
    }
  }

  /** Under the invariant at most one token is selected, and it is the active one. */
  lemma {:induction false} AtMostOneSelected(g: Game)
    requires SelectionMatchesActive(g)
    ensures |SelectedTokens(g.tokens)| <= 1
    ensures g.active.Some? ==> SelectedTokens(g.tokens) == {g.active.value}
    ensures g.active.None? ==> SelectedTokens(g.tokens) == {}
  {
    match g.active
    case None =>
      assert SelectedTokens(g.tokens) == {};
    case Some(t) =>
      AllTokensComplete(t);
      assert SelectedTokens(g.tokens) == {t};
  }

  /** Every click keeps the invariant. */
  lemma StepKeepsInv(g: Game, c: Click)
    requires Inv(g)
    ensures Inv(Step(g, c))
  {
    var r := Step(g, c);
    match c
    case OnToken(t) =>
    case OnStar(p) =>
      if g.active.Some? {
        var t := g.active.value;
        assert SlotsTrackPlays(r) by {
          forall u | At(r.tokens, u).place.Star?
            ensures Occupant(r.slots, At(r.tokens, u).place.pos).Some?
          {
            if u != t {
              assert At(r.tokens, u) == At(g.tokens, u);
            }
          }
        }
      }
    case OnNothing =>
  }

  /** Selecting a token of the player to move leaves it as the only selected
      token and the active one. */
  lemma SelectOwnToken(g: Game, t: TokenId)
    requires Inv(g)
    requires t.owner == g.player
    ensures Step(g, OnToken(t)).active == Some(t)
    ensures SelectedTokens(Step(g, OnToken(t)).tokens) == {t}
  {
    StepKeepsInv(g, OnToken(t));
    AtMostOneSelected(Step(g, OnToken(t)));
  }

  /** Clicking the same token twice is the same as clicking it once. */
  lemma SelectIdempotent(g: Game, t: TokenId)
    ensures Step(Step(g, OnToken(t)), OnToken(t)) == Step(g, OnToken(t))
  {
  }

  /** The state after a sequence of clicks. */
  function Run(g: Game, cs: seq<Click>): Game
    decreases |cs|
  {
    if cs == [] then g else Run(Step(g, cs[0]), cs[1..])
  }

  /** How many clicks of a sequence complete a move. */
  function MoveCount(g: Game, cs: seq<Click>): nat
    decreases |cs|
  {
    if cs == [] then 0
    else (if Accepts(g, cs[0]) then 1 else 0) + MoveCount(Step(g, cs[0]), cs[1..])
  }

  /** Any sequence of clicks keeps the invariant. */
  lemma {:induction false} RunKeepsInv(g: Game, cs: seq<Click>)
    requires Inv(g)
    ensures Inv(Run(g, cs))
    decreases |cs|
  {
    if cs != [] {
      StepKeepsInv(g, cs[0]);
      RunKeepsInv(Step(g, cs[0]), cs[1..]);
    }
  }

  /** Turns alternate strictly: after any clicks, the original player is to
      move exactly when an even number of moves were completed. */
  lemma {:induction false} RunAlternates(g: Game, cs: seq<Click>)
    ensures Run(g, cs).player == (if MoveCount(g, cs) % 2 == 0 then g.player else Other(g.player))
    decreases |cs|
  {
    if cs != [] {
      RunAlternates(Step(g, cs[0]), cs[1..]);
    }
  }

  /** Every state reachable from the start keeps the invariant, has at most
      one selected token, and has BLUE to move exactly after an even number
      of moves. */
  lemma Reachable(cs: seq<Click>)
    ensures Inv(Run(Init(), cs))
    ensures |SelectedTokens(Run(Init(), cs).tokens)| <= 1
    ensures Run(Init(), cs).player == Blue <==> MoveCount(Init(), cs) % 2 == 0
  {
    InitFacts();
    RunKeepsInv(Init(), cs);
    AtMostOneSelected(Run(Init(), cs));
    RunAlternates(Init(), cs);
  }
}
