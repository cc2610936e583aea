/** What a board slot can hold and which marks a player can own. */
module Marks {
  /** A board slot: the source's strings ' ', 'X' and 'O'. */
  datatype Mark = Blank | X | O

  /** A player's icon is one of the two non-blank marks. */
  type Icon = m: Mark | m != Blank witness X

  /** The icon the machine plays against a human holding `i` (main.py:224-234). */
  function Other(i: Icon): (o: Icon)
    ensures o != i
  {
    if i == X then O else X
  }
}
