/** `piece.get_moves()`: the dispatch from a piece's kind to its own generator. */
module Moves {
  import opened Pieces
  import opened Boards
  import opened Sliding
  import opened Jumping
  import opened Pawns

  /** The candidate list of piece p, generated from its stored position over grid g;
      the pawn's en passant test also reads the move history. */
  function Candidates(p: Piece, g: Grid, history: seq<string>): seq<Square>
    requires IsGrid(g) && InBounds(p.position)
  {
    var (x, y) := p.position;
    match p.kind
    case Pawn => PawnCandidates(p, g, history)
    case Rook => Slide(g, p.colour, x, y, RookDirections)
    case Knight => Jumps(g, p.colour, x, y, KnightOffsets)
    case Bishop => Slide(g, p.colour, x, y, BishopDirections)
    case Queen => Slide(g, p.colour, x, y, QueenDirections)
    case King => Jumps(g, p.colour, x, y, KingOffsets)
  }

  /** `piece.get_moves(board)`, with the board that the source reads from the global `game`
      and the move history passed in. */
  method GetMoves(p: Piece, board: Board, history: seq<string>) returns (moves: seq<Square>)
    requires board.Valid() && InBounds(p.position)
    ensures moves == Candidates(p, board.grid, history)
  {
    match p.kind
    case Pawn => moves := PawnMoves(board, p, history);
    case Rook => moves := SlideMoves(board, p.colour, p.position, RookDirections);
    case Knight => moves := JumpMoves(board, p.colour, p.position, KnightOffsets);
    case Bishop => moves := SlideMoves(board, p.colour, p.position, BishopDirections);
    case Queen => moves := SlideMoves(board, p.colour, p.position, QueenDirections);
    case King => moves := JumpMoves(board, p.colour, p.position, KingOffsets);
  }
}

/** Properties shared by every generator. */
module MovesProofs {
  import opened Pieces
  import opened Boards
  import opened Notation
  import opened Sliding
  import opened SlidingProofs
  import opened Jumping
  import opened JumpingProofs
  import opened Pawns
  import opened PawnProofs
  import opened Moves

  /** Every candidate of every piece names a square of the board. */
  lemma CandidatesInBounds(p: Piece, g: Grid, history: seq<string>, m: Square)
    requires IsGrid(g) && InBounds(p.position)
    requires m in Candidates(p, g, history)
    ensures InBounds(m)
  {
    CandidatesOpen(p, g, history, m);
  }

  /** Every candidate is on the board and empty or held by the other side; the one exception is a
      pawn's en passant target, offered when that test passes. */
  lemma CandidatesOpen(p: Piece, g: Grid, history: seq<string>, m: Square)
    requires IsGrid(g) && InBounds(p.position)
    requires m in Candidates(p, g, history)
    ensures InBounds(m)
    ensures Open(g, p.colour, m) || (p.kind == Pawn && CanEnPassant(p, g, history) && m == EnPassantTarget(p))
  {
    var (x, y) := p.position;
    match p.kind
    case Pawn => PawnCandidatesShape(p, g, history, m);
    case Rook => SlideSound(g, p.colour, x, y, RookDirections, m);
    case Knight => JumpsMember(g, p.colour, x, y, KnightOffsets, m);
    case Bishop => SlideSound(g, p.colour, x, y, BishopDirections, m);
    case Queen => SlideSound(g, p.colour, x, y, QueenDirections, m);
    case King => JumpsMember(g, p.colour, x, y, KingOffsets, m);
  }

  /** While the history holds only convert_to_san entries, no piece is offered a square held by
      its own side; in particular not the square it stands on. */
  lemma NeverOntoOwnSide(p: Piece, g: Grid, history: seq<string>, m: Square)
    requires IsGrid(g) && InBounds(p.position)
    requires |history| > 0 ==> IsSanEntry(history[|history| - 1])
    requires InBounds(m) && At(g, m).Some? && At(g, m).value.colour == p.colour
    ensures m !in Candidates(p, g, history)
  {
    if m in Candidates(p, g, history) {
      EnPassantNeverFires(p, g, history);
      CandidatesOpen(p, g, history, m);
      assert false;
    }
  }
}
