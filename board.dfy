/** The 8x8 board of the chess rule engine (chess-main.py, class Board). */
module Boards {
  import opened Pieces

  /** `board[y][x]`: eight rows of eight optional occupants. */
  type Grid = seq<seq<Option<Piece>>>

  predicate IsGrid(g: Grid) {
    |g| == 8 && forall y :: 0 <= y < 8 ==> |g[y]| == 8
  }

  /** A well-shaped grid whose every occupant carries an in-bounds stored position:
      the move generators start from that position. */
  predicate ValidGrid(g: Grid) {
    IsGrid(g) &&
    forall y, x :: 0 <= y < 8 && 0 <= x < 8 && g[y][x].Some? ==> InBounds(g[y][x].value.position)
  }

  /** The occupant of square s, `board[y][x]`. */
  function At(g: Grid, s: Square): Option<Piece>
    requires IsGrid(g) && InBounds(s)
  {
    g[s.1][s.0]
  }

  /** Square s is on the board and is empty or holds a piece of the side other than c. */
  predicate Open(g: Grid, c: Colour, s: Square)
    requires IsGrid(g)
  {
    InBounds(s) && (At(g, s).None? || At(g, s).value.colour != c)
  }

  const BackRankKinds: seq<Kind> := [Rook, Knight, Bishop, Queen, King, Bishop, Knight, Rook]

  /** A back rank as Board.__init__ writes it out, each piece created at its own square. */
  function BackRank(c: Colour, y: int): seq<Option<Piece>> {
    [ Some(Piece(c, Rook, (0, y))), Some(Piece(c, Knight, (1, y))),
      Some(Piece(c, Bishop, (2, y))), Some(Piece(c, Queen, (3, y))),
      Some(Piece(c, King, (4, y))), Some(Piece(c, Bishop, (5, y))),
      Some(Piece(c, Knight, (6, y))), Some(Piece(c, Rook, (7, y))) ]
  }

  /** `[Pawn(c, (i, y)) for i in range(8)]` */
  function PawnRank(c: Colour, y: int): seq<Option<Piece>> {
    seq(8, i => Some(Piece(c, Pawn, (i, y))))
  }

  /** `[None] * 8` */
  function EmptyRank(): seq<Option<Piece>> {
    seq(8, i => None)
  }

  function InitialGrid(): Grid {
    [ BackRank(Black, 0), PawnRank(Black, 1),
      EmptyRank(), EmptyRank(), EmptyRank(), EmptyRank(),
      PawnRank(White, 6), BackRank(White, 7) ]
  }

  /** What the standard starting position puts on (x, y). */
  function StartingOccupant(x: int, y: int): Option<Piece>
    requires 0 <= x < 8
  {
    if y == 0 then Some(Piece(Black, BackRankKinds[x], (x, y)))
    else if y == 1 then Some(Piece(Black, Pawn, (x, y)))
    else if y == 6 then Some(Piece(White, Pawn, (x, y)))
    else if y == 7 then Some(Piece(White, BackRankKinds[x], (x, y)))
    else None
  }

  /** The initial layout is the standard one, and every piece's stored position is its square. */
  lemma InitialLayout()
    ensures ValidGrid(InitialGrid())
    ensures forall x, y :: 0 <= x < 8 && 0 <= y < 8 ==> At(InitialGrid(), (x, y)) == StartingOccupant(x, y)
    ensures forall x, y :: 0 <= x < 8 && 0 <= y < 8 && At(InitialGrid(), (x, y)).Some? ==>
      At(InitialGrid(), (x, y)).value.position == (x, y)
  {
    var g := InitialGrid();
    forall x, y | 0 <= x < 8 && 0 <= y < 8
      ensures At(g, (x, y)) == StartingOccupant(x, y)
    {
      if y == 0 || y == 7 {
        assert BackRank(if y == 0 then Black else White, y)[x] == StartingOccupant(x, y);
      }
    }
  }

  /** Board.move_piece on a grid value: the destination receives the start's occupant,
      then the start is cleared (so a move onto its own square empties it). */
  function MovedGrid(g: Grid, startPos: Square, endPos: Square): (r: Grid)
    requires IsGrid(g) && InBounds(startPos) && InBounds(endPos)
    ensures IsGrid(r)
    ensures forall q :: InBounds(q) ==>
      At(r, q) == if q == startPos then None else if q == endPos then At(g, startPos) else At(g, q)
    ensures ValidGrid(g) ==> ValidGrid(r)
  {
    var (x1, y1) := startPos;
    var (x2, y2) := endPos;
    var lifted := g[y2 := g[y2][x2 := g[y1][x1]]];
    lifted[y1 := lifted[y1][x1 := None]]
  }

  class Board {
    const tileSize: int
    var grid: Grid

    ghost predicate Valid()
      reads this
    {
      ValidGrid(grid)
    }

    constructor (tileSize: int)
      ensures Valid() && this.tileSize == tileSize && grid == InitialGrid()
    {
      this.tileSize := tileSize;
      grid := InitialGrid();
      InitialLayout();
    }

    /** Board.get_piece_at: `board[y][x]`; an occupant always carries an in-bounds position. */
    function GetPieceAt(position: Square): (r: Option<Piece>)
      reads this
      requires Valid() && InBounds(position)
      ensures r == At(grid, position)
      ensures r.Some? ==> InBounds(r.value.position)
    {
      grid[position.1][position.0]
    }

    /** Board.move_piece: no legality check; the moved piece's stored position is left as it was. */
    method MovePiece(startPos: Square, endPos: Square)
      requires Valid() && InBounds(startPos) && InBounds(endPos)
      modifies this
      ensures Valid() && grid == MovedGrid(old(grid), startPos, endPos)
    {
      var (x1, y1) := startPos;
      var (x2, y2) := endPos;
      grid := grid[y2 := grid[y2][x2 := grid[y1][x1]]];
      grid := grid[y1 := grid[y1][x1 := None]];
    }
  }
}
