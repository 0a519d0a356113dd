/** Candidate moves of a pawn: Pawn.get_moves, Pawn.can_en_passant and Pawn.en_passant_target. */
module Pawns {
  import opened Seqs
  import opened Pieces
  import opened Boards
  import opened Notation

  /** `self.direction`: white pawns walk towards row 0, black pawns towards row 7. */
  function Forward(c: Colour): int {
    if c == White then -1 else 1
  }

  /** The row a pawn of colour c starts on, from which the source allows the two-square advance. */
  predicate OnHomeRow(c: Colour, y: int) {
    (c == White && y == 6) || (c == Black && y == 1)
  }

  function ForwardOne(p: Piece): Square {
    (p.position.0, p.position.1 + Forward(p.colour))
  }

  function ForwardTwo(p: Piece): Square {
    (p.position.0, p.position.1 + 2 * Forward(p.colour))
  }

  function CaptureLeft(p: Piece): Square {
    (p.position.0 - 1, p.position.1 + Forward(p.colour))
  }

  function CaptureRight(p: Piece): Square {
    (p.position.0 + 1, p.position.1 + Forward(p.colour))
  }

  /** The text the source compares the last history entry with: `f"p{x}{rank}"`. */
  function EnPassantKey(x: int, rank: char): string
    requires 0 <= x < 8
  {
    ['p', DigitChar(x), rank]
  }

  /** Pawn.can_en_passant: with no move recorded it is false; a white pawn on row 3 needs the last
      entry to be `p{x}5` and a piece on (x, 4); a black pawn on row 4 needs `p{x}4` and a piece
      on (x, 3); any other pawn cannot. */
  predicate CanEnPassant(p: Piece, g: Grid, history: seq<string>)
    requires IsGrid(g) && InBounds(p.position)
  {
    var (x, y) := p.position;
    if |history| == 0 then false
    else if p.colour == White && y == 3 then
      history[|history| - 1] == EnPassantKey(x, '5') && At(g, (x, 4)).Some?
    else if p.colour == Black && y == 4 then
      history[|history| - 1] == EnPassantKey(x, '4') && At(g, (x, 3)).Some?
    else false
  }

  /** Pawn.en_passant_target: the square one step forward, which is the very square of the
      one-step advance, so a list holding both holds that square twice. */
  function EnPassantTarget(p: Piece): (r: Square)
    ensures r == ForwardOne(p)
  {
    (p.position.0, p.position.1 + Forward(p.colour))
  }

  /** The advancing part of Pawn.get_moves: one step when that row exists and the square is empty,
      then a second when the pawn stands on its home row and that square is empty too. */
  function Advances(p: Piece, g: Grid): seq<Square>
    requires IsGrid(g) && InBounds(p.position)
  {
    var f1 := ForwardOne(p);
    if 0 <= f1.1 < 8 && At(g, f1).None? then
      [f1] + (if OnHomeRow(p.colour, p.position.1) && At(g, ForwardTwo(p)).None? then [ForwardTwo(p)] else [])
    else []
  }

  /** The `for capture in [capture_left, capture_right]` loop: a diagonal square on the board
      that holds a piece of the other side. */
  function Captures(g: Grid, c: Colour, squares: seq<Square>): seq<Square>
    requires IsGrid(g)
  {
    if squares == [] then []
    else
      var s := squares[|squares| - 1];
      Captures(g, c, squares[..|squares| - 1]) +
        (if InBounds(s) && At(g, s).Some? && At(g, s).value.colour != c then [s] else [])
  }

  /** Pawn.get_moves over a grid and a move history, in the source's order. */
  function PawnCandidates(p: Piece, g: Grid, history: seq<string>): seq<Square>
    requires IsGrid(g) && InBounds(p.position)
  {
    Advances(p, g) + Captures(g, p.colour, [CaptureLeft(p), CaptureRight(p)]) +
      (if CanEnPassant(p, g, history) then [EnPassantTarget(p)] else [])
  }

  /** Pawn.get_moves, over the board and the move history passed in. */
  method PawnMoves(board: Board, p: Piece, history: seq<string>) returns (moves: seq<Square>)
    requires board.Valid() && InBounds(p.position)
    ensures moves == PawnCandidates(p, board.grid, history)
  {
    var (x, y) := p.position;
    var direction := Forward(p.colour);
    moves := [];
    var forwardOne := (x, y + direction);
    var forwardTwo := (x, y + 2 * direction);
    var captureLeft := (x - 1, y + direction);
    var captureRight := (x + 1, y + direction);
    if 0 <= forwardOne.1 < 8 {
      var ahead := board.GetPieceAt(forwardOne);
      if ahead.None? {
        moves := moves + [forwardOne];
        if (p.colour == White && y == 6) || (p.colour == Black && y == 1) {
          var twoAhead := board.GetPieceAt(forwardTwo);
          if twoAhead.None? {
            moves := moves + [forwardTwo];
          }
        }
      }
    }
    assert moves == Advances(p, board.grid);
    var captures := [captureLeft, captureRight];
    for i := 0 to |captures|
      invariant moves == Advances(p, board.grid) + Captures(board.grid, p.colour, captures[..i])
    {
      assert captures[..i + 1][..i] == captures[..i];
      var capture := captures[i];
      if 0 <= capture.0 < 8 && 0 <= capture.1 < 8 {
        var piece := board.GetPieceAt(capture);
        if piece.Some? && piece.value.colour != p.colour {
          AppendAssoc(Advances(p, board.grid), Captures(board.grid, p.colour, captures[..i]), [capture]);
          moves := moves + [capture];
        }
      }
    }
    assert captures[..|captures|] == captures;
    if CanEnPassant(p, board.grid, history) {
      moves := moves + [EnPassantTarget(p)];
    }
  }
}

/** What Pawn.get_moves computes. */
module PawnProofs {
  import opened Pieces
  import opened Boards
  import opened Notation
  import opened Pawns

  /** The capture loop keeps exactly the listed squares that hold an enemy piece. */
  lemma {:induction false} CapturesMember(g: Grid, c: Colour, squares: seq<Square>, m: Square)
    requires IsGrid(g)
    ensures m in Captures(g, c, squares) <==>
      m in squares && InBounds(m) && At(g, m).Some? && At(g, m).value.colour != c
  {
    if squares != [] {
      var n := |squares| - 1;
      CapturesMember(g, c, squares[..n], m);
      assert squares == squares[..n] + [squares[n]];
    }
  }

  /** No history entry recorded by Game.convert_to_san can enable en passant: every such entry has
      four characters, the text compared with has three. */
  lemma EnPassantNeverFires(p: Piece, g: Grid, history: seq<string>)
    requires IsGrid(g) && InBounds(p.position)
    requires |history| > 0 ==> IsSanEntry(history[|history| - 1])
    ensures !CanEnPassant(p, g, history)
  {
  }

  /** The one-step advance is offered exactly when that row exists and the square is empty,
      or when en passant (whose target is that same square) is allowed. */
  lemma ForwardOneOffered(p: Piece, g: Grid, history: seq<string>)
    requires IsGrid(g) && InBounds(p.position)
    ensures ForwardOne(p) in PawnCandidates(p, g, history) <==>
      (0 <= ForwardOne(p).1 < 8 && At(g, ForwardOne(p)).None?) || CanEnPassant(p, g, history)
  {
    CapturesMember(g, p.colour, [CaptureLeft(p), CaptureRight(p)], ForwardOne(p));
  }

  /** The two-step advance is offered exactly from the home row, through two empty squares. */
  lemma ForwardTwoOffered(p: Piece, g: Grid, history: seq<string>)
    requires IsGrid(g) && InBounds(p.position)
    ensures ForwardTwo(p) in PawnCandidates(p, g, history) <==>
      OnHomeRow(p.colour, p.position.1) && At(g, ForwardOne(p)).None? && At(g, ForwardTwo(p)).None?
  {
    CapturesMember(g, p.colour, [CaptureLeft(p), CaptureRight(p)], ForwardTwo(p));
  }

  /** A diagonal step forward is offered exactly when it is on the board and holds an enemy piece. */
  lemma CaptureOffered(p: Piece, g: Grid, history: seq<string>, s: Square)
    requires IsGrid(g) && InBounds(p.position)
    requires s == CaptureLeft(p) || s == CaptureRight(p)
    ensures s in PawnCandidates(p, g, history) <==>
      InBounds(s) && At(g, s).Some? && At(g, s).value.colour != p.colour
  {
    CapturesMember(g, p.colour, [CaptureLeft(p), CaptureRight(p)], s);
  }

  /** When the one-step square is empty and en passant is allowed, Pawn.get_moves lists that
      square twice: once as the advance and once as the en passant target. */
  lemma EnPassantDuplicatesAdvance(p: Piece, g: Grid, history: seq<string>)
    requires IsGrid(g) && InBounds(p.position)
    requires 0 <= ForwardOne(p).1 < 8 && At(g, ForwardOne(p)).None? && CanEnPassant(p, g, history)
    ensures var ms := PawnCandidates(p, g, history);
      |ms| >= 2 && ms[0] == ForwardOne(p) && ms[|ms| - 1] == ForwardOne(p)
  {
  }

  /** A pawn is offered nothing but those four squares, each on the board, and each empty or held
      by the other side unless it is the en passant target offered because that test passes. */
  lemma PawnCandidatesShape(p: Piece, g: Grid, history: seq<string>, m: Square)
    requires IsGrid(g) && InBounds(p.position)
    requires m in PawnCandidates(p, g, history)
    ensures m == ForwardOne(p) || m == ForwardTwo(p) || m == CaptureLeft(p) || m == CaptureRight(p)
    ensures InBounds(m)
    ensures Open(g, p.colour, m) || (CanEnPassant(p, g, history) && m == EnPassantTarget(p))
  {
    CapturesMember(g, p.colour, [CaptureLeft(p), CaptureRight(p)], m);
  }
}
