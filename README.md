# Chess rule engine: a verified model

This project models the rule engine of a small pygame chess game (`chess-main.py`). Four parts are modelled:

- the board: its starting layout, reading a square, and moving a piece;
- candidate-move generation for each of the six piece kinds, including the pawn's en passant test;
- the game controller: selecting a piece by clicking, making a move, undoing it, and switching the side to move;
- the move history written in coordinate notation, together with the undo stack of board snapshots.

Layout of the modules:

- `Pieces`: colours, kinds and pieces. A piece is a value: the source never updates its stored `position`.
- `Boards`: the grid `board[y][x]`, the starting layout, and the class `Board` with `GetPieceAt` and `MovePiece`.
- `Notation`: the history entries of `convert_to_san`, a parser that reads them back, and the `" ".join` of the PGN text.
- `Sliding` / `SlidingProofs`: the ray walk of the rook, bishop and queen. A loop method is proved equal to a recursive specification; lemmas then prove that specification sound and complete against an independent "reaches" predicate.
- `Jumping` / `JumpingProofs`: the fixed-offset moves of the knight and king. Each is characterised exactly by the shape of the move.
- `Pawns` / `PawnProofs`: the pawn's advances, captures and en passant test.
- `Moves` / `MovesProofs`: the dispatch of `get_moves` by kind, and properties shared by all generators.
- `GameRules` / `GameProofs`: the game state as a value, and `make_move`, `undo_move` and `click` as functions on it, with the invariant they keep and the round trip between move and undo.
- `Games`: the class `Game`, whose methods change its fields and the board in place. Each method is proved to leave the state that the matching `GameRules` function describes.
- `Scenarios`: a concrete opening played through the rules.

The model keeps the source's quirks rather than fixing them:

- **Explicit inputs.** Every generator reads the board and the history through explicit parameters. The source reads the global `game`.
- **Stale positions.** A piece generates its moves from the position it was created with, even after it has moved. `Scenarios.StalePawnRetreat` shows a white pawn stepping back.
- **Lists of candidates.** Candidates form a list, not a set.
- **En passant never fires.** The en passant test compares the last history entry with a three-character text. History entries always have four characters, so the test is never true in a reachable game.

The model also follows the code where it departs from the usual rules of chess:

- A click on a square without a piece of the side to move keeps the earlier selection; it does not clear it.
- En passant never takes effect, although the pawn's move generator has code for it.

## Model

| member | source | states |
|---|---|---|
| Boards.InitialLayout | chess-main.py:112-141 | The starting grid is 8x8 with the black back rank r n b q k b n r on row 0, black pawns on row 1, rows 2-5 empty, white pawns on row 6 and the white back rank on row 7; every piece's stored position equals its square |
| Boards.Board.constructor | chess-main.py:112-141 | A new board holds the starting grid and satisfies the board invariant |
| Boards.Board.GetPieceAt | chess-main.py:166-168 | Returns the occupant of `board[y][x]`; an occupant always stores an in-bounds position |
| Boards.MovedGrid | chess-main.py:170-174 | After a move the end square holds the start square's former occupant (its stored position untouched), the start square is empty (so start == end empties it), every other square is unchanged, and the grid invariant is kept |
| Boards.Board.MovePiece | chess-main.py:170-174 | Updates the board in place to exactly the grid MovedGrid describes, keeping the board invariant |
| Notation.ConvertToSan | chess-main.py:68-74 | Every history entry is a colour letter, a kind letter, a file `a`-`h` and a rank `1`-`8` |
| Notation.SanRoundTrip | chess-main.py:68-74 | Parsing an entry written for a move gives back the moved piece's colour and kind and the move's destination square |
| Notation.JoinedEntries | chess-main.py:93-94 | The space-joined history of n entries has 5n-1 characters, with entry i at offset 5i and the entries separated by single spaces |
| Notation.PgnLayout | chess-main.py:93-94 | The PGN text starts with the header, holds entry i at offset 5i after it with the entries separated by single spaces, and ends with the result marker `" *\n"`; its length is the header's plus 3 for no moves, plus 5n+2 for n moves |
| Sliding.SlideMoves | chess-main.py:285-300 | The nested for/while loop of the rook, bishop and queen returns exactly the ray-by-ray candidate list Slide specifies |
| Sliding.WalkRay | chess-main.py:291-299 | The inner `while` loop appends exactly the ray from its first square: the empty squares in order, then the first occupied one only if it holds a piece of the other side |
| SlidingProofs.SlideSound | chess-main.py:285-300 | Every sliding candidate is on the board, is empty or holds a piece of the other side, lies k >= 1 steps along one of the directions, and every square strictly before it on that ray is on the board and empty |
| SlidingProofs.SlideComplete | chess-main.py:285-300 | Conversely, every square reached along one of the directions in that way is a candidate |
| SlidingProofs.NothingBeyondBlocker | chess-main.py:292-296 | No square beyond the first occupied square of a ray is a candidate |
| SlidingProofs.RookLines | chess-main.py:285-300 | A rook is offered only squares of its own row or column, never its own square |
| SlidingProofs.BishopLines | chess-main.py:333-348 | A bishop is offered only squares of its own diagonals, never its own square |
| SlidingProofs.QueenLines | chess-main.py:355-379 | A queen is offered only squares on its row, column or diagonals |
| SlidingProofs.QueenIsBishopThenRook | chess-main.py:355-379 | The queen's candidate list is the bishop's list followed by the rook's, because its eight directions are the bishop's four followed by the rook's four |
| Jumping.JumpMoves | chess-main.py:307-326 | The offset loop of the knight and king returns exactly the list Jumps specifies |
| JumpingProofs.JumpsMember | chess-main.py:319-325 | A square is a jump candidate iff it is on the board, it is empty or holds a piece of the other side, and it is at one of the offsets |
| JumpingProofs.KnightCandidates | chess-main.py:307-326 | A square is a knight candidate iff it is a (1,2) or (2,1) leap away, on the board, and empty or held by the other side |
| JumpingProofs.KingCandidates | chess-main.py:386-405 | A square is a king candidate iff it is one of the 8 neighbours, on the board, and empty or held by the other side |
| Pawns.PawnMoves | chess-main.py:236-259 | Pawn.get_moves returns exactly the advances, then the two captures, then the en passant target when that test passes |
| Pawns.EnPassantTarget | chess-main.py:271-272 | The en passant target is the same square as the one-step advance `forward_one`: straight ahead on the pawn's own column, never a diagonal square |
| PawnProofs.EnPassantDuplicatesAdvance | chess-main.py:239-257 | When the one-step square is empty and the en passant test passes, the candidate list holds that square twice, first and last |
| PawnProofs.ForwardOneOffered | chess-main.py:244-246 | The one-step advance is a candidate iff its row is on the board and the square is empty, or the en passant test (whose target is that same square) passes |
| PawnProofs.ForwardTwoOffered | chess-main.py:244-248 | The two-step advance is a candidate iff the pawn is on its home row (white 6, black 1) and both squares ahead are empty |
| PawnProofs.CaptureOffered | chess-main.py:250-254 | A diagonal square ahead is a candidate iff it is on the board and holds a piece of the other side |
| PawnProofs.CapturesMember | chess-main.py:250-254 | The capture loop keeps exactly the listed squares that are on the board and hold a piece of the other side |
| PawnProofs.PawnCandidatesShape | chess-main.py:236-259 | A pawn candidate is one of its four squares and is on the board, and it is empty or held by the other side unless it is the en passant target offered because that test passes |
| PawnProofs.EnPassantNeverFires | chess-main.py:261-269 | The en passant test `can_en_passant` (the predicate `Pawns.CanEnPassant`: false on an empty history; a white pawn on row 3 needs the last entry to be `p{x}5`, a black pawn on row 4 `p{x}4`, and an occupant beside it) is false whenever the last history entry has the form convert_to_san writes |
| Moves.GetMoves | chess-main.py:53 | `piece.get_moves(board)` returns the candidate list of the piece's kind, generated from its stored position over the given board |
| MovesProofs.CandidatesInBounds | chess-main.py:236-405 | Every candidate of every piece is a square of the board |
| MovesProofs.CandidatesOpen | chess-main.py:236-405 | Every candidate is empty or held by the other side, except a pawn's en passant target (the one-step square) offered when that test passes |
| MovesProofs.NeverOntoOwnSide | chess-main.py:236-405 | Under a history of convert_to_san entries, no piece is offered a square held by its own side |
| GameProofs.InitialStateValid | chess-main.py:19-28 | A new game has white to move, the starting board, empty history and snapshot lists, and satisfies the game invariant |
| GameProofs.MovePreservesValid | chess-main.py:48-60 | make_move keeps the invariant: one snapshot per history entry, every entry in convert_to_san form, white to move iff an even number of moves were made, and a selection on the board |
| GameProofs.MoveChangesIffAccepted | chess-main.py:48-60 | make_move changes the game iff a piece stands on the start square, it belongs to the side to move, and the end square is among its candidates; otherwise board, turn, history, snapshots and selection all stay as they were |
| GameProofs.AcceptedMove | chess-main.py:48-60 | On an accepted move, history and snapshots each grow by one and keep their earlier entries; the new snapshot is the board before the move; the new entry names the moved piece and its destination; end differs from start; the piece is moved (stored position unchanged) and no other square changes; the turn flips and the selection is cleared |
| GameProofs.NoSelfCapture | chess-main.py:48-60 | An accepted move ends on the board, on an empty square or on a piece of the other side |
| GameProofs.UndoAfterMove | chess-main.py:55-66 | Undo right after an accepted move restores the exact earlier board, turn, history and snapshots; only the selection stays cleared |
| GameProofs.UndoPreservesValid | chess-main.py:62-66 | undo_move keeps the game invariant, including equal lengths of history and snapshots |
| GameProofs.UndoChangesIffStacked | chess-main.py:62-66 | undo_move changes the game iff there is a snapshot to restore; with an empty stack it is a no-op |
| GameProofs.PixelInTile | chess-main.py:40-42 | A pixel inside the window maps to a square of the board, and the pixel lies inside that square's 64x64 tile |
| GameProofs.ClickSelects | chess-main.py:40-46 | click changes only the selection; the tile becomes selected iff it holds a piece of the side to move (or was already selected); otherwise the earlier selection is kept |
| GameProofs.ClickPreservesValid | chess-main.py:40-46 | click keeps the game invariant |
| GameProofs.EnPassantUnreachable | chess-main.py:261-269 | No pawn's en passant test passes in any state satisfying the invariant |
| Games.Game.constructor | chess-main.py:19-28 | A new Game holds the initial state, with both castling flags and the running flag set |
| Games.Game.Click | chess-main.py:40-46 | Updates the selection to the state AfterClick describes, keeping the invariant |
| Games.Game.MakeMove | chess-main.py:48-60 | Updates turn, selection, history, snapshots and board to the state AfterMove describes, keeping the invariant |
| Games.Game.UndoMove | chess-main.py:62-66 | Updates turn, history, snapshots and board to the state AfterUndo describes, keeping the invariant |
| Pieces.Opponent | chess-main.py:76-77 | The side switch_turn passes the move to is never the side that had it |
| Games.Game.SwitchTurn | chess-main.py:76-77 | Passes the turn to the other side |
| Scenarios.FirstMove | chess-main.py:48-60 | From the starting position, white's b2-b4 is accepted and recorded as `wpb4`, with black to move |
| Scenarios.RookStillBlocked | chess-main.py:285-300 | After b2-b4 and a7-a6, the white rook on a1 has no candidates |
| Scenarios.OpeningScenario | chess-main.py:48-60 | b2-b4 and a7-a6 are accepted and recorded as `wpb4 bpa6`, and the rook move a1-a4 is then refused |
| Scenarios.StalePawnRetreat | chess-main.py:170-174 | After b2-b4 and a7-a6, the pawn on b4 still stores b2, so it is offered b3 and may step backwards |

## Left out

- The pygame side is not modelled: the window, caption and icon, image loading, `Board.render` and the `run` event loop. It is rendering and I/O over a library outside the model.
- `ResourceManager.resource_path` is not modelled: it is file-system path handling.
- `save_pgn` writes a file and is not modelled. For `format_pgn`, only the tail after the header is modelled, by `Notation.PgnText`; its header holds the current date, so it is taken as a parameter.
- `Pawn.promote` is not modelled: it is an interactive `input()` loop, and nothing calls it.
- The castling flags `can_black_castle` and `can_white_castle` are inert fields: nothing reads them.
- `run` never calls `make_move`. `Games.Game.MakeMove` models the method as written, for a caller that does call it.
- Moves.GetMoves takes the board as an argument. In the source, `make_move` calls `piece.get_moves(self.board)`, but `get_moves` takes no argument, so Python would raise a TypeError there. The model runs the generator on the board that was passed, which is the board the global `game` holds.
- Games.Game.MakeMove requires the start square to be on the board. Python would raise IndexError, or wrap a negative index, for other start squares. Those paths are not modelled.
- Games.Game.Click requires the pointer to lie inside the 512x512 window, as pygame reports it. Clicks outside the window are not modelled.
- Notation.ConvertToSan requires both squares to be on the board: `col_names` is indexed with both files. Every accepted move satisfies this.
- The side to move is a two-valued `Colour`, not the strings "w" and "b". `switch_turn` maps every string other than "w" to "w", but only those two strings ever occur.
