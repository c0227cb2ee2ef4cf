/** Tokens: the six pieces, their places and flags, and `Token.on_click`. */
module Tokens {
  import opened Board
  import opened Players

  /** Which of a player's three home spots a token starts on (`Game.HOME[color][idx]`). */
  datatype Index = First | Second | Third

  /** A token is identified by its owner's colour and its home index. */
  datatype TokenId = TokenId(owner: Color, index: Index)

  /** Where a token stands: still on its home spot, or on a star. */
  datatype Place = Home | Star(pos: Position)

  /** A token's mutable attributes: `pos`, `selected` and `played`. */
  datatype TokenState = TokenState(place: Place, selected: bool, played: bool)

  /** A token fresh from `Token.__init__`: at home, neither selected nor played. */
  const Unplayed := TokenState(Home, false, false)

  /** The number of tokens in a game: three per player. */
  const TokenCount := 6

  /** The token stored at position `i` of a token table. */
  function TokenAt(i: int): TokenId
    requires 0 <= i < TokenCount
  {
    if i < 3 then TokenId(Blue, [First, Second, Third][i])
    else TokenId(Green, [First, Second, Third][i - 3])
  }

  /** Where a token is stored in a token table; `TokenAt` inverts it. */
  function TokenIndex(t: TokenId): (i: int)
    ensures 0 <= i < TokenCount && TokenAt(i) == t
  {
    match t
    case TokenId(Blue, First) => 0
    case TokenId(Blue, Second) => 1
    case TokenId(Blue, Third) => 2
    case TokenId(Green, First) => 3
    case TokenId(Green, Second) => 4
    case TokenId(Green, Third) => 5
  }

  /** The six tokens of a game. */
  const AllTokens: set<TokenId> := set i | 0 <= i < TokenCount :: TokenAt(i)

  /** There are no tokens but the six. */
  lemma AllTokensComplete(t: TokenId)
    ensures t in AllTokens
  {
    var i := TokenIndex(t);
    assert TokenAt(i) == t;
  }

  /** The tokens a player owns (`Player.tokens`). */
  function OwnedBy(c: Color): set<TokenId> {
    set t | t in AllTokens && t.owner == c
  }

  /** Each player owns exactly three tokens: one per home spot. */
  lemma OwnedByHasThree(c: Color)
    ensures OwnedBy(c) == {TokenId(c, First), TokenId(c, Second), TokenId(c, Third)}
    ensures |OwnedBy(c)| == 3
  {
    AllTokensComplete(TokenId(c, First));
    AllTokensComplete(TokenId(c, Second));
    AllTokensComplete(TokenId(c, Third));
    assert OwnedBy(c) == {TokenId(c, First), TokenId(c, Second), TokenId(c, Third)};
  }

  /** The state of all six tokens, stored in the order `TokenAt` gives. */
  type TokenTable = s: seq<TokenState> | |s| == TokenCount
    witness [Unplayed, Unplayed, Unplayed, Unplayed, Unplayed, Unplayed]

  /** The state of one token. */
  function At(tokens: TokenTable, t: TokenId): TokenState {
    tokens[TokenIndex(t)]
  }

  /** Replaces the state of one token. */
  function Update(tokens: TokenTable, t: TokenId, s: TokenState): (r: TokenTable)
    ensures At(r, t) == s
    ensures forall u :: u != t ==> At(r, u) == At(tokens, u)
  {
    tokens[TokenIndex(t) := s]
  }

  /** The tokens whose `selected` flag is set. */
  function SelectedTokens(tokens: TokenTable): set<TokenId> {
    set t | t in AllTokens && At(tokens, t).selected
  }

  /** `Token.on_click`: a token that is not yet selected becomes selected and
      every other token is deselected; clicking a selected token changes nothing.
      Places and `played` flags are never touched. */
  function OnClick(tokens: TokenTable, t: TokenId): (r: TokenTable)
    ensures At(r, t).selected
    ensures forall u :: At(r, u).place == At(tokens, u).place && At(r, u).played == At(tokens, u).played
    ensures At(tokens, t).selected ==> r == tokens
    ensures !At(tokens, t).selected ==> forall u :: At(r, u).selected <==> u == t
  {
    if At(tokens, t).selected then tokens
    else seq(TokenCount, i requires 0 <= i < TokenCount => tokens[i].(selected := i == TokenIndex(t)))
  }
}
