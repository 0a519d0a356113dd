/** Candidate moves of the pieces that jump to fixed offsets: Knight.get_moves and King.get_moves
    try each offset once and keep the target when it is on the board and not held by their own side. */
module Jumping {
  import opened Pieces
  import opened Boards

  type Offset = (int, int)

  const KnightOffsets: seq<Offset> := [(2, 1), (-2, -1), (1, 2), (-1, -2), (2, -1), (-2, 1), (1, -2), (-1, 2)]
  const KingOffsets: seq<Offset> := [(1, 1), (-1, -1), (1, -1), (-1, 1), (1, 0), (-1, 0), (0, 1), (0, -1)]

  function Shift(x: int, y: int, o: Offset): Square {
    (x + o.0, y + o.1)
  }

  /** The `for dx, dy in directions` loop of a jumping get_moves, over the offsets in order. */
  function Jumps(g: Grid, c: Colour, x: int, y: int, offs: seq<Offset>): seq<Square>
    requires IsGrid(g)
  {
    if offs == [] then []
    else
      var t := Shift(x, y, offs[|offs| - 1]);
      Jumps(g, c, x, y, offs[..|offs| - 1]) + (if Open(g, c, t) then [t] else [])
  }

  /** Knight.get_moves and King.get_moves, over the board passed in. */
  method JumpMoves(board: Board, c: Colour, position: Square, offs: seq<Offset>) returns (moves: seq<Square>)
    requires board.Valid()
    ensures moves == Jumps(board.grid, c, position.0, position.1, offs)
  {
    var (x, y) := position;
    moves := [];
    for i := 0 to |offs|
      invariant moves == Jumps(board.grid, c, x, y, offs[..i])
    {
      assert offs[..i + 1][..i] == offs[..i];
      var (dx, dy) := offs[i];
      var nx, ny := x + dx, y + dy;
      if 0 <= nx < 8 && 0 <= ny < 8 {
        var piece := board.GetPieceAt((nx, ny));
        if piece.None? || piece.value.colour != c {
          moves := moves + [(nx, ny)];
        }
      }
    }
    assert offs[..|offs|] == offs;
  }

  /** m is a knight's leap from (x, y): two squares one way and one the other. */
  predicate KnightShaped(x: int, y: int, m: Square) {
    (Abs(m.0 - x) == 1 && Abs(m.1 - y) == 2) || (Abs(m.0 - x) == 2 && Abs(m.1 - y) == 1)
  }

  /** m is one king step from (x, y). */
  predicate KingShaped(x: int, y: int, m: Square) {
    Abs(m.0 - x) <= 1 && Abs(m.1 - y) <= 1 && m != (x, y)
  }
}

/** What the jumping generators compute. */
module JumpingProofs {
  import opened Pieces
  import opened Boards
  import opened Jumping

  /** A jump candidate is exactly an open square at one of the offsets. */
  lemma {:induction false} JumpsMember(g: Grid, c: Colour, x: int, y: int, offs: seq<Offset>, m: Square)
    requires IsGrid(g)
    ensures m in Jumps(g, c, x, y, offs) <==>
      Open(g, c, m) && exists i :: 0 <= i < |offs| && m == Shift(x, y, offs[i])
  {
    if offs != [] {
      var n := |offs| - 1;
      var front := offs[..n];
      JumpsMember(g, c, x, y, front, m);
      if exists i :: 0 <= i < |offs| && m == Shift(x, y, offs[i]) {
        var i :| 0 <= i < |offs| && m == Shift(x, y, offs[i]);
        if i < n {
          assert front[i] == offs[i];
        }
      }
      if exists i :: 0 <= i < |front| && m == Shift(x, y, front[i]) {
        var i :| 0 <= i < |front| && m == Shift(x, y, front[i]);
        assert offs[i] == front[i];
      }
    }
  }

  /** Knight.get_moves yields exactly the knight-shaped squares that are on the board and
      not held by the knight's own side. */
  lemma KnightCandidates(g: Grid, c: Colour, x: int, y: int, m: Square)
    requires IsGrid(g)
    ensures m in Jumps(g, c, x, y, KnightOffsets) <==> Open(g, c, m) && KnightShaped(x, y, m)
  {
    JumpsMember(g, c, x, y, KnightOffsets, m);
    if KnightShaped(x, y, m) {
      var dx, dy := m.0 - x, m.1 - y;
      var i := if dx == 2 && dy == 1 then 0 else if dx == -2 && dy == -1 then 1
        else if dx == 1 && dy == 2 then 2 else if dx == -1 && dy == -2 then 3
        else if dx == 2 && dy == -1 then 4 else if dx == -2 && dy == 1 then 5
        else if dx == 1 && dy == -2 then 6 else 7;
      assert m == Shift(x, y, KnightOffsets[i]);
    }
    if exists i :: 0 <= i < |KnightOffsets| && m == Shift(x, y, KnightOffsets[i]) {
      var i :| 0 <= i < |KnightOffsets| && m == Shift(x, y, KnightOffsets[i]);
      assert KnightShaped(x, y, m);
    }
  }

  /** King.get_moves yields exactly the neighbouring squares that are on the board and
      not held by the king's own side. */
  lemma KingCandidates(g: Grid, c: Colour, x: int, y: int, m: Square)
    requires IsGrid(g)
    ensures m in Jumps(g, c, x, y, KingOffsets) <==> Open(g, c, m) && KingShaped(x, y, m)
  {
    JumpsMember(g, c, x, y, KingOffsets, m);
    if KingShaped(x, y, m) {
      var dx, dy := m.0 - x, m.1 - y;
      var i := if dx == 1 && dy == 1 then 0 else if dx == -1 && dy == -1 then 1
        else if dx == 1 && dy == -1 then 2 else if dx == -1 && dy == 1 then 3
        else if dx == 1 && dy == 0 then 4 else if dx == -1 && dy == 0 then 5
        else if dx == 0 && dy == 1 then 6 else 7;
      assert m == Shift(x, y, KingOffsets[i]);
    }
    if exists i :: 0 <= i < |KingOffsets| && m == Shift(x, y, KingOffsets[i]) {
      var i :| 0 <= i < |KingOffsets| && m == Shift(x, y, KingOffsets[i]);
      assert KingShaped(x, y, m);
    }
  }
}
