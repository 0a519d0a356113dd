/** Colours, kinds and pieces of the chess rule engine (chess-main.py, classes Piece and its six subclasses). */
module Pieces {

  datatype Option<T> = None | Some(value: T)

  /** The two sides; the source spells them "w" and "b". */
  datatype Colour = White | Black

  /** The six piece classes of the source, one variant each. */
  datatype Kind = Pawn | Rook | Knight | Bishop | Queen | King

  /** A square (x, y): x is the column (0 leftmost), y the row (0 is black's back rank).
      Any pair of integers can be formed; InBounds says when it names a square of the board. */
  type Square = (int, int)

  /** A piece: its colour, its kind and the position it was created with.
      The source never updates `position` after construction, so a piece is a value. */
  datatype Piece = Piece(colour: Colour, kind: Kind, position: Square)

  predicate InBounds(s: Square) {
    0 <= s.0 < 8 && 0 <= s.1 < 8
  }

  function Abs(n: int): nat {
    if n < 0 then -n else n
  }

  /** The other side: Game.switch_turn maps "w" to "b" and everything else to "w". */
  function Opponent(c: Colour): (r: Colour)
    ensures r != c
  {
    if c == White then Black else White
  }

  function ColourLetter(c: Colour): char {
    if c == White then 'w' else 'b'
  }

  function KindLetter(k: Kind): char {
    match k
    case Pawn => 'p'
    case Rook => 'r'
    case Knight => 'n'
    case Bishop => 'b'
    case Queen => 'q'
    case King => 'k'
  }

  /** The two-character symbol `colour + piece_type` given to every piece by Piece.__init__. */
  function Symbol(p: Piece): string {
    [ColourLetter(p.colour), KindLetter(p.kind)]
  }
}
