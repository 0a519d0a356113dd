/** What the game controller's operations guarantee. */
module GameProofs {
  import opened Pieces
  import opened Boards
  import opened Notation
  import opened Pawns
  import opened PawnProofs
  import opened Moves
  import opened MovesProofs
  import opened GameRules

  /** A new game satisfies the invariant. */
  lemma InitialStateValid()
    ensures ValidState(InitialState())
  {
    InitialLayout();
  }

  /** make_move keeps the invariant, accepted or not. */
  lemma MovePreservesValid(st: GameState, startPos: Square, endPos: Square)
    requires ValidState(st) && InBounds(startPos)
    ensures ValidState(AfterMove(st, startPos, endPos))
  {
    if Accepts(st, startPos, endPos) {
      var r := AfterMove(st, startPos, endPos);
      assert forall i :: 0 <= i < |st.history| ==> r.history[i] == st.history[i];
      assert forall i :: 0 <= i < |st.snapshots| ==> r.snapshots[i] == st.snapshots[i];
    }
  }

  /** undo_move keeps the invariant, with or without a snapshot to restore. */
  lemma UndoPreservesValid(st: GameState)
    requires ValidState(st)
    ensures ValidState(AfterUndo(st))
  {
  }

  /** click keeps the invariant: the tile under a pixel of the window is a square of the board. */
  lemma ClickPreservesValid(st: GameState, mouseX: int, mouseY: int)
    requires ValidState(st)
    requires 0 <= mouseX < 8 * TileSize && 0 <= mouseY < 8 * TileSize
    ensures ValidState(AfterClick(st, mouseX, mouseY))
  {
  }

  /** make_move changes the game exactly when all three of its checks pass. */
  lemma MoveChangesIffAccepted(st: GameState, startPos: Square, endPos: Square)
    requires ValidState(st) && InBounds(startPos)
    ensures AfterMove(st, startPos, endPos) != st <==> Accepts(st, startPos, endPos)
  {
    if Accepts(st, startPos, endPos) {
      assert |AfterMove(st, startPos, endPos).history| == |st.history| + 1;
    }
  }

  /** An accepted move: both lists grow by one, the new snapshot is the board before the move,
      the new entry names the moved piece and its destination, the piece is now on the end square
      with its stored position untouched, the start square is empty, no other square changes,
      the turn passes and nothing is selected. */
  lemma AcceptedMove(st: GameState, startPos: Square, endPos: Square)
    requires ValidState(st) && InBounds(startPos)
    requires Accepts(st, startPos, endPos)
    ensures var r := AfterMove(st, startPos, endPos);
      var piece := At(st.grid, startPos).value;
      && InBounds(endPos) && endPos != startPos
      && |r.history| == |st.history| + 1 && r.history[..|st.history|] == st.history
      && ParseSan(r.history[|st.history|]) == Some((piece.colour, piece.kind, endPos))
      && |r.snapshots| == |st.snapshots| + 1 && r.snapshots[..|st.snapshots|] == st.snapshots
      && r.snapshots[|st.snapshots|] == st.grid
      && At(r.grid, endPos) == Some(piece) && At(r.grid, startPos) == None
      && (forall q :: InBounds(q) && q != startPos && q != endPos ==> At(r.grid, q) == At(st.grid, q))
      && r.turn != st.turn && r.selected == None
  {
    var piece := At(st.grid, startPos).value;
    CandidatesInBounds(piece, st.grid, st.history, endPos);
    NeverOntoOwnSide(piece, st.grid, st.history, startPos);
    SanRoundTrip(startPos, endPos, piece);
    var r := AfterMove(st, startPos, endPos);
    assert r.history[..|st.history|] == st.history;
    assert r.snapshots[..|st.snapshots|] == st.snapshots;
  }

  /** No accepted move lands on a piece of the side that makes it. */
  lemma NoSelfCapture(st: GameState, startPos: Square, endPos: Square)
    requires ValidState(st) && InBounds(startPos)
    requires Accepts(st, startPos, endPos)
    ensures InBounds(endPos) && (At(st.grid, endPos).None? || At(st.grid, endPos).value.colour != st.turn)
  {
    var piece := At(st.grid, startPos).value;
    CandidatesInBounds(piece, st.grid, st.history, endPos);
    if At(st.grid, endPos).Some? && At(st.grid, endPos).value.colour == st.turn {
      NeverOntoOwnSide(piece, st.grid, st.history, endPos);
    }
  }

  /** Undoing an accepted move restores the board, the turn, the history and the undo stack;
      only the selection, which make_move cleared, stays cleared. */
  lemma UndoAfterMove(st: GameState, startPos: Square, endPos: Square)
    requires ValidState(st) && InBounds(startPos)
    requires Accepts(st, startPos, endPos)
    ensures AfterUndo(AfterMove(st, startPos, endPos)) == st.(selected := None)
  {
    var r := AfterMove(st, startPos, endPos);
    assert r.history[..|st.history|] == st.history;
    assert r.snapshots[..|st.snapshots|] == st.snapshots;
  }

  /** undo_move changes the game exactly when there is a snapshot to restore. */
  lemma UndoChangesIffStacked(st: GameState)
    requires ValidState(st)
    ensures AfterUndo(st) != st <==> |st.snapshots| > 0
  {
    if |st.snapshots| > 0 {
      assert |AfterUndo(st).history| == |st.history| - 1;
    }
  }

  /** The pixel lies inside the tile TileAt names. */
  lemma PixelInTile(mouseX: int, mouseY: int)
    requires 0 <= mouseX < 8 * TileSize && 0 <= mouseY < 8 * TileSize
    ensures var t := TileAt(mouseX, mouseY);
      && InBounds(t)
      && t.0 * TileSize <= mouseX < (t.0 + 1) * TileSize
      && t.1 * TileSize <= mouseY < (t.1 + 1) * TileSize
  {
  }

  /** click selects the tile under the pointer exactly when it holds a piece of the side to move,
      keeps the earlier selection otherwise, and changes nothing but the selection. */
  lemma ClickSelects(st: GameState, mouseX: int, mouseY: int)
    requires ValidState(st)
    requires 0 <= mouseX < 8 * TileSize && 0 <= mouseY < 8 * TileSize
    ensures var r := AfterClick(st, mouseX, mouseY);
      var t := TileAt(mouseX, mouseY);
      && r.(selected := st.selected) == st
      && (r.selected == Some(t) <==> st.selected == Some(t) || (At(st.grid, t).Some? && At(st.grid, t).value.colour == st.turn))
      && (r.selected != st.selected ==> At(st.grid, t).Some? && At(st.grid, t).value.colour == st.turn)
  {
  }

  /** In every state satisfying the invariant, no pawn can capture en passant. */
  lemma EnPassantUnreachable(st: GameState, p: Piece)
    requires ValidState(st) && InBounds(p.position)
    ensures !CanEnPassant(p, st.grid, st.history)
  {
    if |st.history| > 0 {
      assert IsSanEntry(st.history[|st.history| - 1]);
    }
    EnPassantNeverFires(p, st.grid, st.history);
  }
}
