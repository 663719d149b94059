/** The cards of the Sets game: a card is a value with four attributes
    (shape, number, colour, pattern), compared attribute by attribute.
    The plugin draws each attribute at random; here cards are inputs, and
    `InDomain` says which cards each difficulty level can produce. */
module Cards {

  /** The three difficulty levels the game can be started with. */
  datatype Level = Normal | Hard | Monochrome

  /** Number of cards dealt on a board. */
  const NUM_CARDS: nat := 12

  /** The three shapes, drawn as 'x', 'o' and '#'. */
  datatype Shape = Cross | Ring | Hash

  /** The IRC colour codes the plugin uses, for cards and for points. */
  datatype IrcColor = White | Green | Red | Yellow | LightGray

  /** The three patterns: plain, underlined and reverse video. */
  datatype Pattern = Plain | Underline | Reverse

  datatype Card = Card(shape: Shape, number: int, color: IrcColor, pattern: Pattern)

  /** Card inequality: some attribute differs. */
  function Differ(a: Card, b: Card): (r: bool)
    ensures r <==> a != b
  {
    a.shape != b.shape || a.number != b.number || a.color != b.color || a.pattern != b.pattern
  }

  /** Card equality is the negation of `Differ`. */
  function Same(a: Card, b: Card): (r: bool)
    ensures r <==> a == b
    ensures r <==> a.shape == b.shape && a.number == b.number && a.color == b.color && a.pattern == b.pattern
  {
    !Differ(a, b)
  }

  /** The cards a level can deal: any shape, one to three symbols, one of
      three colours (only light gray in monochrome), and a pattern other
      than plain only in the hard and monochrome levels. */
  function InDomain(level: Level, c: Card): (r: bool)
    ensures r ==> (c.color == LightGray <==> level == Monochrome)
    ensures r ==> (c.pattern != Plain ==> level != Normal)
  {
    1 <= c.number <= 3 &&
    (if level == Monochrome then c.color == LightGray else c.color == Red || c.color == Green || c.color == Yellow) &&
    (level == Hard || level == Monochrome || c.pattern == Plain)
  }
}
