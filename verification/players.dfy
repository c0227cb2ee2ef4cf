/** Players: the two token colours, the colour check of `Player.__init__`,
    the default display names and the upper-casing used in turn messages. */
module Players {
  import opened Wrappers

  /** The two colours a player may have (`COLORS`). */
  datatype Color = Blue | Green

  /** A raw colour value as pygame represents it. */
  datatype Rgba = Rgba(red: int, green: int, blue: int, alpha: int)

  /** The pygame colour-table entry behind each player colour. */
  function RgbaOf(c: Color): Rgba {
    match c
    case Blue => Rgba(0, 0, 255, 255)
    case Green => Rgba(0, 255, 0, 255)
  }

  /** `COLORS`: the only raw colours a player may be built with. */
  const Colors: seq<Rgba> := [RgbaOf(Blue), RgbaOf(Green)]

  /** The colour's name in `COLOR_NAME`, the default display name. */
  function ColorName(c: Color): string {
    match c
    case Blue => "blue"
    case Green => "green"
  }

  /** The opponent's colour: the turn swap at the end of an accepted move. */
  function Other(c: Color): (d: Color)
    ensures d != c
  {
    if c == Blue then Green else Blue
  }

  /** Reads a raw colour back as a player colour, if it is one. */
  function ColorOf(x: Rgba): (r: Option<Color>)
    ensures r.Some? <==> x in Colors
    ensures r.Some? ==> RgbaOf(r.value) == x
  {
    if x == RgbaOf(Blue) then Some(Blue)
    else if x == RgbaOf(Green) then Some(Green)
    else None
  }

  /** Reading back the raw value of a colour gives that colour. */
  lemma ColorRoundTrip(c: Color)
    ensures ColorOf(RgbaOf(c)) == Some(c)
  {
  }

  /** A player: an immutable colour and a display name. */
  datatype Player = Player(color: Color, name: string)

  /** The `ValueError` text raised for a colour outside `COLORS`. */
  const InvalidColorMessage := "Invalid value for color. Use BLUE or GREEN"

  /** `Player(color, name)`: rejects any colour that is not BLUE or GREEN; an
      absent or empty name falls back to the colour's name. */
  function NewPlayer(color: Rgba, name: Option<string>): (r: Result<Player, string>)
    ensures r.Success? <==> color in Colors
    ensures r.Success? ==> RgbaOf(r.value.color) == color
    ensures r.Success? && name.Some? && name.value != [] ==> r.value.name == name.value
    ensures r.Success? && (name.None? || name.value == []) ==> r.value.name == ColorName(r.value.color)
    ensures r.Failure? ==> r.error == InvalidColorMessage
  {
    match ColorOf(color)
    case None => Failure(InvalidColorMessage)
    case Some(c) =>
      var display := if name.Some? && name.value != [] then name.value else ColorName(c);
      Success(Player(c, display))
  }

  /** The two players `Game.__init__` builds: `Player(BLUE)` and `Player(GREEN)`. */
  function GamePlayer(c: Color): (p: Player)
    ensures NewPlayer(RgbaOf(c), None) == Success(p)
  {
    Player(c, ColorName(c))
  }

  /** Python's `str.upper` on one ASCII character. */
  function UpperChar(ch: char): (u: char)
    ensures 'a' <= ch <= 'z' ==> u as int == ch as int - 32
    ensures !('a' <= ch <= 'z') ==> u == ch
  {
    if 'a' <= ch <= 'z' then (ch as int - 32) as char else ch
  }

  /** Python's `str.upper` on an ASCII string: every character upper-cased, in place. */
  function Upper(s: string): (r: string)
    ensures |r| == |s|
    ensures forall i :: 0 <= i < |s| ==> r[i] == UpperChar(s[i])
  {
    if s == [] then [] else [UpperChar(s[0])] + Upper(s[1..])
  }
}
