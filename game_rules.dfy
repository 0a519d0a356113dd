/** The rules of the game controller (chess-main.py, class Game) as functions on its state. */
module GameRules {
  import opened Pieces
  import opened Boards
  import opened Notation
  import opened Moves
  import opened MovesProofs

  /** `self.TILESIZE`: the side of one square, in pixels. */
  const TileSize: int := 64

  /** The part of a Game the rules read and write: the turn, the board, `move_history`,
      `previous_boards` and `selected`. */
  datatype GameState = GameState(
    turn: Colour,
    grid: Grid,
    history: seq<string>,
    snapshots: seq<Grid>,
    selected: Option<Square>)

  /** What every reachable game satisfies: well-formed boards, one snapshot per recorded move,
      every history entry written by convert_to_san, white to move exactly after an even number
      of moves, and a selection (when there is one) naming a square of the board. */
  predicate ValidState(st: GameState) {
    && ValidGrid(st.grid)
    && |st.history| == |st.snapshots|
    && (forall i :: 0 <= i < |st.snapshots| ==> ValidGrid(st.snapshots[i]))
    && (forall i :: 0 <= i < |st.history| ==> IsSanEntry(st.history[i]))
    && (st.turn == White <==> |st.history| % 2 == 0)
    && (st.selected.Some? ==> InBounds(st.selected.value))
  }

  /** Game.__init__: white to move, the starting board, nothing selected, both lists empty. */
  function InitialState(): GameState {
    GameState(White, InitialGrid(), [], [], None)
  }

  /** The three conditions make_move checks, in its order: a piece stands on the start square,
      it belongs to the side to move, and the end square is among its candidates. */
  predicate Accepts(st: GameState, startPos: Square, endPos: Square)
    requires ValidGrid(st.grid) && InBounds(startPos)
  {
    var piece := At(st.grid, startPos);
    piece.Some? && piece.value.colour == st.turn && endPos in Candidates(piece.value, st.grid, st.history)
  }

  /** Game.make_move: an accepted move pushes the current board, records its entry, moves the
      piece, passes the turn and clears the selection; any other request changes nothing. */
  function AfterMove(st: GameState, startPos: Square, endPos: Square): GameState
    requires ValidGrid(st.grid) && InBounds(startPos)
  {
    if !Accepts(st, startPos, endPos) then st
    else
      var piece := At(st.grid, startPos).value;
      CandidatesInBounds(piece, st.grid, st.history, endPos);
      GameState(
        Opponent(st.turn),
        MovedGrid(st.grid, startPos, endPos),
        st.history + [ConvertToSan(startPos, endPos, piece)],
        st.snapshots + [st.grid],
        None)
  }

  /** Game.undo_move: with a snapshot on the stack, restore it, drop the last history entry and
      pass the turn back; the selection is left as it was. */
  function AfterUndo(st: GameState): GameState
    requires |st.history| == |st.snapshots|
  {
    if |st.snapshots| == 0 then st
    else
      var n := |st.snapshots| - 1;
      st.(turn := Opponent(st.turn), grid := st.snapshots[n],
          history := st.history[..n], snapshots := st.snapshots[..n])
  }

  /** The tile under pixel (mouseX, mouseY): `mouse // TILESIZE` on each axis. */
  function TileAt(mouseX: int, mouseY: int): Square {
    (mouseX / TileSize, mouseY / TileSize)
  }

  /** Game.click: select the tile under the pointer when it holds a piece of the side to move;
      otherwise keep whatever was selected before. */
  function AfterClick(st: GameState, mouseX: int, mouseY: int): GameState
    requires IsGrid(st.grid)
    requires 0 <= mouseX < 8 * TileSize && 0 <= mouseY < 8 * TileSize
  {
    var tile := TileAt(mouseX, mouseY);
    var piece := At(st.grid, tile);
    if piece.Some? && piece.value.colour == st.turn then st.(selected := Some(tile)) else st
  }
}
