/** Candidate moves of the sliding pieces: Rook.get_moves, Bishop.get_moves and Queen.get_moves
    all walk each of their direction vectors until the first occupied square. */
module Sliding {
  import opened Seqs
  import opened Pieces
  import opened Boards

  const RookDirections: seq<Direction> := [(1, 0), (-1, 0), (0, 1), (0, -1)]
  const BishopDirections: seq<Direction> := [(1, 1), (-1, -1), (1, -1), (-1, 1)]
  const QueenDirections: seq<Direction> :=
    [(1, 1), (-1, -1), (1, -1), (-1, 1), (1, 0), (-1, 0), (0, 1), (0, -1)]

  /** One of the eight king-step vectors. */
  predicate Unit(d: (int, int)) {
    -1 <= d.0 <= 1 && -1 <= d.1 <= 1 && d != (0, 0)
  }

  /** A direction vector of a sliding piece. */
  type Direction = d: (int, int) | Unit(d) witness (1, 0)

  /** k times the sign of a: k * a for a in -1..1, written without multiplication. */
  function Scale(k: int, a: int): int {
    if a > 0 then k else if a < 0 then -k else 0
  }

  /** The square k steps from (x, y) along the unit direction d. */
  function Step(x: int, y: int, d: Direction, k: int): Square {
    (x + Scale(k, d.0), y + Scale(k, d.1))
  }

  /** One step along d, then k more, is k + 1 steps. */
  lemma StepShift(x: int, y: int, d: Direction, k: int)
    ensures Step(x + d.0, y + d.1, d, k) == Step(x, y, d, k + 1)
  {
  }

  /** How far coordinate n can still travel in sign direction dn before it leaves 0..7. */
  function Left(n: int, dn: int): nat {
    if dn > 0 && n < 8 then 8 - n else if dn < 0 && n >= 0 then n + 1 else 0
  }

  function Remaining(nx: int, ny: int, d: Direction): nat {
    Left(nx, d.0) + Left(ny, d.1)
  }

  /** The inner `while` loop of a sliding get_moves from (nx, ny) along d: every empty square is
      a candidate and the walk goes on; an occupied square is a candidate only when it holds a
      piece of the other side, and the walk stops there. */
  function Ray(g: Grid, c: Colour, nx: int, ny: int, d: Direction): seq<Square>
    requires IsGrid(g)
    decreases Remaining(nx, ny, d)
  {
    if !InBounds((nx, ny)) then []
    else if At(g, (nx, ny)).None? then [(nx, ny)] + Ray(g, c, nx + d.0, ny + d.1, d)
    else if At(g, (nx, ny)).value.colour != c then [(nx, ny)]
    else []
  }

  /** The outer `for dx, dy in directions` loop: the rays of each direction, in order. */
  function Slide(g: Grid, c: Colour, x: int, y: int, dirs: seq<Direction>): seq<Square>
    requires IsGrid(g)
  {
    if dirs == [] then []
    else
      var d := dirs[|dirs| - 1];
      Slide(g, c, x, y, dirs[..|dirs| - 1]) + Ray(g, c, x + d.0, y + d.1, d)
  }

  /** Square Step(x, y, d, k) is reachable: it is on the board and empty or held by the other side,
      and every square strictly between (x, y) and it is on the board and empty. */
  predicate Reaches(g: Grid, c: Colour, x: int, y: int, d: Direction, k: int)
    requires IsGrid(g)
  {
    1 <= k && Open(g, c, Step(x, y, d, k)) &&
    forall j :: 1 <= j < k ==> InBounds(Step(x, y, d, j)) && At(g, Step(x, y, d, j)).None?
  }
  /** What a ray r walked from (x, y) along d looks like: its k-th square is k + 1 steps away and
      on the board, every square but the last is empty, the last is open, and when the last is
      empty (or r has no square at all) the next square is off the board or holds a piece of side c. */
  predicate RayFacts(g: Grid, c: Colour, x: int, y: int, d: Direction, r: seq<Square>)
    requires IsGrid(g)
  {
    && (forall k :: 0 <= k < |r| ==> r[k] == Step(x, y, d, k + 1) && InBounds(r[k]))
    && (forall k :: 0 <= k < |r| - 1 ==> At(g, r[k]).None?)
    && (|r| > 0 ==> Open(g, c, r[|r| - 1]))
    && ((|r| == 0 || At(g, r[|r| - 1]).None?) ==> !Open(g, c, Step(x, y, d, |r| + 1)))
  }

  /** Rook.get_moves, Bishop.get_moves and Queen.get_moves, over the board passed in. */
  method SlideMoves(board: Board, c: Colour, position: Square, dirs: seq<Direction>) returns (moves: seq<Square>)
    requires board.Valid()
    ensures moves == Slide(board.grid, c, position.0, position.1, dirs)
  {
    var (x, y) := position;
    moves := [];
    for i := 0 to |dirs|
      invariant moves == Slide(board.grid, c, x, y, dirs[..i])
    {
      var (dx, dy) := dirs[i];
      assert dirs[..i + 1][..i] == dirs[..i];
      moves := WalkRay(board, c, moves, x + dx, y + dy, dirs[i]);
    }
    assert dirs[..|dirs|] == dirs;
  }

  /** The inner `while` loop of the sliding get_moves: walks from (nx, ny) along d, appending
      to the candidate list as it goes. */
  method WalkRay(board: Board, c: Colour, moves0: seq<Square>, nx0: int, ny0: int, d: Direction)
    returns (moves: seq<Square>)
    requires board.Valid()
    ensures moves == moves0 + Ray(board.grid, c, nx0, ny0, d)
  {
    var (dx, dy) := d;
    moves := moves0;
    var nx, ny := nx0, ny0;
    while 0 <= nx < 8 && 0 <= ny < 8
      invariant moves + Ray(board.grid, c, nx, ny, d) == moves0 + Ray(board.grid, c, nx0, ny0, d)
      decreases Remaining(nx, ny, d)
    {
      var piece := board.GetPieceAt((nx, ny));
      if piece.Some? {
        if piece.value.colour != c {
          moves := moves + [(nx, ny)];
        }
        break;
      }
      AppendAssoc(moves, [(nx, ny)], Ray(board.grid, c, nx + dx, ny + dy, d));
      moves := moves + [(nx, ny)];
      nx, ny := nx + dx, ny + dy;
    }
  }
}
