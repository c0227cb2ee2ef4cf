/** The game state and its response to mouse clicks (`Game.on_mousebutton_down`),
    with pixel hit-testing replaced by clicks already resolved to a token or a star. */
module Games {
  import opened Wrappers
  import opened Board
  import opened Players
  import opened Tokens

  /** The `token` attribute of every `Slot`, stored in the order of `Stars`. */
  type SlotTable = s: seq<Option<TokenId>> | |s| == |Stars|
    witness [None, None, None, None, None, None, None, None, None]

  /** The token a star's slot records, if any. */
  function Occupant(slots: SlotTable, p: Position): Option<TokenId> {
    slots[StarIndex(p)]
  }

  /** `Slot.on_click`: the slot at `p` now records `t`; other slots keep theirs. */
  function Record(slots: SlotTable, p: Position, t: TokenId): (r: SlotTable)
    ensures Occupant(r, p) == Some(t)
    ensures forall q :: q != p ==> Occupant(r, q) == Occupant(slots, q)
  {
    slots[StarIndex(p) := Some(t)]
  }

  /** Everything the rules engine keeps: whose turn it is (`player`), the
      token picked for the next move (`active_token`), the six tokens, the
      nine slots, and the text shown in the message area. */
  datatype Game = Game(
    player: Color,
    active: Option<TokenId>,
    tokens: TokenTable,
    slots: SlotTable,
    message: string)

  /** A mouse click after hit-testing: on exactly one token, on a star, or on
      nothing at all. A token is hit at its home spot, where its `rect` was
      set when it was created, so a click on a star never resolves to a token. */
  datatype Click = OnToken(token: TokenId) | OnStar(star: Position) | OnNothing

  const InitialMessage := "BLUE'S TURN"
  const SelectedMessage := "Token selected. Click on a star to place your token."
  const WrongTokenMessage := "Wrong token"
  const SelectFirstMessage := "Please select a token first"

  /** The message after a move, naming the player whose turn it now is. */
  function MovedMessage(next: Color): (m: string)
    ensures next == Blue ==> m == "Token moved. BLUE's TURN"
    ensures next == Green ==> m == "Token moved. GREEN's TURN"
  {
    assert Upper("blue") == "BLUE";
    assert Upper("green") == "GREEN";
    "Token moved. " + Upper(GamePlayer(next).name) + "'s TURN"
  }

  /** `Game.__init__`: BLUE to play, nothing active, every token at home,
      neither selected nor played, and every slot empty. */
  function Init(): (g: Game)
    ensures g.player == Blue && g.active == None
    ensures forall t :: At(g.tokens, t) == TokenState(Home, false, false)
    ensures forall p :: Occupant(g.slots, p) == None
    ensures g.message == InitialMessage
  {
    Game(Blue, None,
         [Unplayed, Unplayed, Unplayed, Unplayed, Unplayed, Unplayed],
         [None, None, None, None, None, None, None, None, None],
         InitialMessage)
  }

  /** A click on one token. A token of the player to move is selected
      (`Token.on_click`) and becomes the active token; a token of the other
      colour only changes the message. */
  function ClickToken(g: Game, t: TokenId): (r: Game)
    ensures t.owner == g.player ==>
              && r.active == Some(t)
              && r.player == g.player
              && r.slots == g.slots
              && r.message == SelectedMessage
              && At(r.tokens, t).selected
              && (forall u :: At(r.tokens, u).place == At(g.tokens, u).place)
              && (forall u :: At(r.tokens, u).played == At(g.tokens, u).played)
    ensures t.owner == g.player && !At(g.tokens, t).selected ==>
              forall u :: At(r.tokens, u).selected <==> u == t
    ensures t.owner == g.player && At(g.tokens, t).selected ==>
              r == g.(active := Some(t), message := SelectedMessage)
    ensures t.owner != g.player ==> r == g.(message := WrongTokenMessage)
  {
    if t.owner == g.player then
      g.(tokens := OnClick(g.tokens, t), active := Some(t), message := SelectedMessage)
    else
      g.(message := WrongTokenMessage)
  }

  /** A click on a star. With no active token it only asks for a selection.
      Otherwise the active token moves there whatever the star holds (there
      is no occupancy or adjacency check), the star's slot records it, the
      token is played and deselected, nothing is active any more and the turn
      passes. The slot the token left keeps recording it. */
  function ClickStar(g: Game, p: Position): (r: Game)
    ensures g.active.None? ==> r == g.(message := SelectFirstMessage)
    ensures g.active.Some? ==>
              && At(r.tokens, g.active.value) == TokenState(Star(p), false, true)
              && (forall u :: u != g.active.value ==> At(r.tokens, u) == At(g.tokens, u))
              && Occupant(r.slots, p) == Some(g.active.value)
              && (forall q :: q != p ==> Occupant(r.slots, q) == Occupant(g.slots, q))
              && r.active == None
              && r.player == Other(g.player)
              && r.message == MovedMessage(r.player)
  {
    match g.active
    case None => g.(message := SelectFirstMessage)
    case Some(t) =>
      var moved := At(g.tokens, t).(place := Star(p), played := true, selected := false);
      var next := Other(g.player);
      g.(tokens := Update(g.tokens, t, moved),
         slots := Record(g.slots, p, t),
         active := None,
         player := next,
         message := MovedMessage(next))
  }

  /** A click that hits neither a token nor a star: it asks for a selection
      when nothing is active, and otherwise changes nothing. */
  function ClickNothing(g: Game): (r: Game)
    ensures g.active.None? ==> r == g.(message := SelectFirstMessage)
    ensures g.active.Some? ==> r == g
  {
    if g.active.None? then g.(message := SelectFirstMessage) else g
  }

  /** True when a click completes a move: a star clicked while a token is active. */
  predicate Accepts(g: Game, c: Click) {
    c.OnStar? && g.active.Some?
  }

  /** `Game.on_mousebutton_down` on a resolved click. Only a completed move
      changes whose turn it is, and then it passes to the other colour; no
      other click moves a token, plays it or writes a slot. */
  function Step(g: Game, c: Click): (r: Game)
    ensures r.player != g.player <==> Accepts(g, c)
    ensures Accepts(g, c) ==> r.player == Other(g.player) && r.active == None
    ensures !Accepts(g, c) ==>
              && r.slots == g.slots
              && (forall u :: At(r.tokens, u).place == At(g.tokens, u).place)
              && (forall u :: At(r.tokens, u).played == At(g.tokens, u).played)
  {
    match c
    case OnToken(t) => ClickToken(g, t)
    case OnStar(p) => ClickStar(g, p)
    case OnNothing => ClickNothing(g)
  }
}
