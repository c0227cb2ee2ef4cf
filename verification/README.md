# pystars rules engine in Dafny

pystars is a two-player game on a star-shaped board. It has nine named stars: a centre and eight ring points. BLUE and GREEN each own three tokens. A player clicks one of their own tokens to select it, then clicks a star to move it there, and the turn passes. A player whose three tokens stand on the centre and two opposite ring points has a winning line.

This project models the rules engine in `pystars/game.py` without its pygame layer. It covers:

- the star and winning-line tables;
- the initial state built by `Game.__init__`;
- the click handler `Game.on_mousebutton_down`, together with `Token.on_click`, `Token.move` and `Slot.on_click`;
- the colour check in `Player.__init__`.

Clicks are taken after hit-testing. A click has been resolved to one token (`OnToken`), one star (`OnStar`) or nothing (`OnNothing`). A token is hit at its home spot, because its `rect` is set once in `Token.__init__` and never moved. So a click on a star is a star click even when a token stands on it.

Modules:

- `Board` (board.dfy): the stars, the clockwise ring, the `Opposite` ring point and the `Winners` table.
- `Players` (players.dfy): colours, `Player(color, name)`, and `str.upper` on ASCII for the turn message.
- `Tokens` (tokens.dfy): token identities, places, flags and `Token.on_click`.
- `Games` (game.dfy): the game record and one pure function per kind of click, plus `Step`.
- `Turns` (turns.dfy): the invariant of reachable states, plus runs of clicks and turn alternation.
- `Wins` (wins.dfy): the win predicate and its geometric reading.
- `Scenarios` (scenarios.dfy): the two games of `tests/test_pystars.py` and a few concrete clicks.
- `Wrappers` (wrappers.dfy): `Option` and `Result`.

The behaviour modelled is the code's behaviour, which differs from some descriptions of the game:

- A move onto a star has no occupancy check and no adjacency check (`# TODO: Validation for move`, `pystars/game.py:210`). So a token may land on an occupied star, and there is no placement phase or movement phase.
- The slot a token leaves still records it.
- `game.py` keeps no winner, no game-over state and no phase. The win check is modelled as the separate pure predicate `Wins.IsWinner`, the one the tests expect.

## Model

| member | source | states |
|---|---|---|
| Board.WinnersShape | pystars/game.py:125-129 | there are exactly four winning lines; each has the centre in the middle of two opposite ring points, so it covers three distinct stars |
| Board.LineOf | pystars/game.py:125-129 | every ring point lies on exactly one winning line |
| Board.OppositeInvolution | pystars/game.py:113-122 | the point opposite the point opposite a ring point is that point again |
| Board.LineIsOppositePair | pystars/game.py:125-129 | each line of the table is the centre plus a ring point and its opposite |
| Board.OppositePairIsLine | pystars/game.py:125-129 | the centre plus any ring point and its opposite is a line of the table |
| Board.WinningLineIffOppositePair | pystars/game.py:125-129 | a set of stars is in the table if and only if it is the centre plus an opposite pair of ring points |
| Players.ColorOf | pystars/game.py:25-27 | a raw colour is accepted exactly when it is BLUE or GREEN, and it reads back as the colour whose raw value it is |
| Players.ColorRoundTrip | pystars/game.py:25-27 | reading a player colour's raw value back gives that colour |
| Players.NewPlayer | pystars/game.py:33-41 | construction succeeds exactly for a colour in `COLORS` and fails with the `ValueError` text otherwise; the name is the given one when it is non-empty, and otherwise the colour's name |
| Players.GamePlayer | pystars/game.py:148 | the game's two players are what `Player(BLUE)` and `Player(GREEN)` construct |
| Players.Other | pystars/game.py:216-219 | the turn always passes to the other colour |
| Players.Upper | pystars/game.py:220 | upper-casing keeps the length and upper-cases each ASCII letter in place |
| Tokens.OwnedByHasThree | pystars/game.py:159-163 | each player owns exactly three tokens, one per home spot |
| Tokens.OnClick | pystars/game.py:71-76 | the clicked token ends selected; if it was not selected, it becomes the only selected token; if it was, nothing changes; places and played flags never change |
| Games.Record | pystars/game.py:106-108 | the clicked star's slot records the token and every other slot is unchanged |
| Games.MovedMessage | pystars/game.py:220 | after a move the message reads "Token moved. BLUE's TURN" or "Token moved. GREEN's TURN", naming the player now to move in capitals |
| Games.Init | pystars/game.py:140-168 | BLUE moves first with no active token; every token is at home, unselected and unplayed; every slot is empty; the message is "BLUE'S TURN" |
| Games.ClickToken | pystars/game.py:192-200 | a token of the player to move becomes selected and active; re-clicking a selected token changes only the active token and the message; a token of the other colour changes only the message |
| Games.ClickStar | pystars/game.py:203-221 | with no active token only the message changes; otherwise the active token moves to the star played and deselected, the slot records it, other tokens and slots are untouched, nothing is active and the turn passes |
| Games.ClickNothing | pystars/game.py:203-222 | a click on nothing asks for a selection when no token is active, and otherwise changes nothing |
| Games.Step | pystars/game.py:188-222 | the player changes exactly on a completed move, and then to the other colour; no other click moves a token, plays it or writes a slot |
| Turns.InitFacts | pystars/game.py:148-163 | the starting state satisfies the invariant; each player owns three tokens; none is selected or played |
| Turns.AtMostOneSelected | pystars/game.py:71-76 | when selection matches the active token, at most one token is selected, and it is the active one |
| Turns.StepKeepsInv | pystars/game.py:188-222 | every click preserves the invariant: the selected token is the active one and belongs to the player to move; played tokens are exactly those on stars; slots record only played tokens |
| Turns.SelectOwnToken | pystars/game.py:193-197 | in a reachable state, selecting one's own token leaves it the only selected token and the active one |
| Turns.SelectIdempotent | pystars/game.py:71-76 | clicking the same token twice is the same as clicking it once |
| Turns.RunKeepsInv | pystars/game.py:188-222 | any sequence of clicks preserves the invariant |
| Turns.RunAlternates | pystars/game.py:216-219 | after any clicks, the original player is to move exactly when an even number of moves were completed |
| Turns.Reachable | pystars/game.py:140-222 | every state reachable from the start satisfies the invariant and has at most one selected token; BLUE is to move exactly after an even number of moves |
| Wins.IsWinner | pystars/game.py:125-129 | a player wins when their three tokens stand exactly on one line of the table; a winner has no token at home and one on the centre |
| Wins.LinePlacesOnBoard | pystars/game.py:125-129 | every winning line covers three different stars |
| Wins.WinnerHasThreeOnBoard | pystars/game.py:125-129 | a winner has all three tokens on three different stars; in a reachable state all three are played |
| Wins.WinIffOppositePair | pystars/game.py:125-129 | a player wins exactly when their tokens stand on the centre, a ring point and the point opposite it |
| Wins.BlueDiagonalWins | tests/test_pystars.py:90-103 | BLUE on bottom_left, center and top_right wins |
| Wins.BlueBentLineLoses | tests/test_pystars.py:75-88 | BLUE on bottom_left, center and top_left does not win |
| Scenarios.TurnMoves | pystars/game.py:193-221 | selecting one's own token and then a star moves that token there played and unselected; no other token moves; the turn passes |
| Scenarios.WinnerGame | tests/test_pystars.py:90-103 | the test's five moves from a fresh start give BLUE a win, GREEN no win, and GREEN the turn |
| Scenarios.NonWinnerGame | tests/test_pystars.py:75-88 | the test's five moves from a fresh start give no win to either player, and GREEN the turn |
| Scenarios.InitialNoWinner | tests/test_pystars.py:72-73 | nobody has won in the starting state |
| Scenarios.HomeTokenBarsWin | pystars/game.py:125-129 | a player with a token still at home has not won |
| Scenarios.FirstMoveMessage | pystars/game.py:220 | after BLUE's first move the message reads "Token moved. GREEN's TURN" |
| Scenarios.GreenCannotOpen | pystars/game.py:194-200 | at the start, clicking a GREEN token changes only the message, to "Wrong token" |

## Left out

- Drawing: every pygame surface, sprite, circle and blit, `Token._draw`/`draw`/`update`, and `pystars/message.py`. They are presentation only; the message area is modelled as the string it displays.
- Pixel hit-testing: `get_sprites_at`, `collidepoint`, and the coordinates in `stars` and `HOME`. Clicks arrive already resolved to a token, a star or nothing.
- The "More than one hit" branch (`pystars/game.py:201-202`): a click resolves to at most one token, because the six home spots do not overlap.
- `Token.__init__`'s `TypeError` for a non-`Rect` position: positions are typed in the model.
- `Token.instances`, a class-wide list that also holds tokens from earlier games: the model keeps the six tokens of one game. Deselecting other games' tokens has no effect on this game.
- `Player.add_token` and `Player.tokens`: ownership is the token's colour, and `Tokens.OwnedBy` derives the group from it.
- `Player.move`: it is never called and refers to a slot attribute that does not exist.
- The keyboard handler, the main loop, event polling, frame delay, option parsing and the `print` calls. Restart re-runs `Game.__init__`, so it returns `Games.Init()`; the "Restarting" message it writes first is overwritten by "BLUE'S TURN".
- Python dictionary iteration order in `_setup_tokens` and `_setup_slots`: the model fixes one order, and no rule depends on it.
- The pygame colour values come from pygame's colour table, not from the repository. `Players.RgbaOf` uses its entries for blue and green.
- Players.Upper: only ASCII letters are upper-cased. Python's `str.upper` also maps other letters, but the names the game uses are ASCII.
- Scenarios.WinnerGame: omits the test's final click, which selects GREEN's third token and then stops. It changes no token's place.
