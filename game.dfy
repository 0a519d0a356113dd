/** The game controller (chess-main.py, class Game): whose turn it is, the selected square,
    the move history and the undo stack of board snapshots. */
module Games {
  import opened Pieces
  import opened Boards
  import opened Notation
  import opened Moves
  import opened MovesProofs
  import opened GameRules
  import opened GameProofs

  class Game {
    const tileSize: int
    var canBlackCastle: bool
    var canWhiteCastle: bool
    var gameRunning: bool
    var turn: Colour
    const board: Board
    var selected: Option<Square>
    var moveHistory: seq<string>
    var previousBoards: seq<Grid>

    function State(): GameState
      reads this, board
    {
      GameState(turn, board.grid, moveHistory, previousBoards, selected)
    }

    ghost predicate Valid()
      reads this, board
    {
      tileSize == TileSize && ValidState(State())
    }

    /** Game.__init__, without the window, caption and icon. */
    constructor ()
      ensures Valid() && State() == InitialState()
      ensures canBlackCastle && canWhiteCastle && gameRunning
    {
      tileSize := TileSize;
      canBlackCastle := true;
      canWhiteCastle := true;
      gameRunning := true;
      turn := White;
      board := new Board(TileSize);
      selected := None;
      moveHistory := [];
      previousBoards := [];
      InitialLayout();
    }

    /** Game.click */
    method Click(mouseX: int, mouseY: int)
      requires Valid()
      requires 0 <= mouseX < 8 * tileSize && 0 <= mouseY < 8 * tileSize
      modifies this`selected
      ensures Valid() && State() == AfterClick(old(State()), mouseX, mouseY)
    {
      var selectedTileX := mouseX / tileSize;
      var selectedTileY := mouseY / tileSize;
      var selectedPiece := board.GetPieceAt((selectedTileX, selectedTileY));
      if selectedPiece.Some? && selectedPiece.value.colour == turn {
        selected := Some((selectedTileX, selectedTileY));
      }
    }

    /** Game.make_move, with the candidates generated over this game's board and history. */
    method MakeMove(startPos: Square, endPos: Square)
      requires Valid() && InBounds(startPos)
      modifies this`turn, this`selected, this`moveHistory, this`previousBoards, board
      ensures Valid() && State() == AfterMove(old(State()), startPos, endPos)
    {
      ghost var before := State();
      MovePreservesValid(before, startPos, endPos);
      var piece := board.GetPieceAt(startPos);
      if piece.Some? && piece.value.colour == turn {
        var moves := GetMoves(piece.value, board, moveHistory);
        if endPos in moves {
          CandidatesInBounds(piece.value, board.grid, moveHistory, endPos);
          ghost var after := AfterMove(before, startPos, endPos);
          previousBoards := previousBoards + [board.grid];
          var sanMove := ConvertToSan(startPos, endPos, piece.value);
          moveHistory := moveHistory + [sanMove];
          board.MovePiece(startPos, endPos);
          SwitchTurn();
          selected := None;
          assert State() == after;
        }
      }
    }

    /** Game.undo_move */
    method UndoMove()
      requires Valid()
      modifies this`turn, this`moveHistory, this`previousBoards, board
      ensures Valid() && State() == AfterUndo(old(State()))
    {
      if |previousBoards| > 0 {
        var n := |previousBoards| - 1;
        board.grid := previousBoards[n];
        previousBoards := previousBoards[..n];
        moveHistory := moveHistory[..n];
        SwitchTurn();
      }
    }

    /** Game.switch_turn */
    method SwitchTurn()
      modifies this`turn
      ensures turn == Opponent(old(turn))
    {
      turn := if turn == White then Black else White;
    }
  }
}
