/** Concrete openings played through the game rules, showing the source's behaviour on real boards. */
module Scenarios {
  import opened Pieces
  import opened Boards
  import opened Notation
  import opened Sliding
  import opened Pawns
  import opened PawnProofs
  import opened Moves
  import opened GameRules

  /** The board after white b2-b4, and after black a7-a6 in reply. */
  function AfterB4(): Grid {
    MovedGrid(InitialGrid(), (1, 6), (1, 4))
  }

  function AfterA6(): Grid {
    MovedGrid(AfterB4(), (0, 1), (0, 2))
  }

  lemma AfterB4Squares()
    ensures IsGrid(AfterB4())
    ensures At(AfterB4(), (1, 4)) == Some(Piece(White, Pawn, (1, 6)))
    ensures At(AfterB4(), (1, 5)).None? && At(AfterB4(), (1, 6)).None?
    ensures At(AfterB4(), (0, 1)) == Some(Piece(Black, Pawn, (0, 1))) && At(AfterB4(), (0, 2)).None?
    ensures At(AfterB4(), (0, 7)) == Some(Piece(White, Rook, (0, 7)))
    ensures At(AfterB4(), (1, 7)) == Some(Piece(White, Knight, (1, 7)))
    ensures At(AfterB4(), (0, 6)) == Some(Piece(White, Pawn, (0, 6)))
  {
    InitialLayout();
  }

  lemma AfterA6Squares()
    ensures IsGrid(AfterA6())
    ensures At(AfterA6(), (1, 4)) == Some(Piece(White, Pawn, (1, 6)))
    ensures At(AfterA6(), (1, 5)).None?
    ensures At(AfterA6(), (0, 7)) == Some(Piece(White, Rook, (0, 7)))
    ensures At(AfterA6(), (1, 7)) == Some(Piece(White, Knight, (1, 7)))
    ensures At(AfterA6(), (0, 6)) == Some(Piece(White, Pawn, (0, 6)))
  {
    AfterB4Squares();
  }

  /** White opens b2-b4: accepted, recorded as `wpb4`, black to move. */
  lemma FirstMoveAccepted()
    ensures Accepts(InitialState(), (1, 6), (1, 4))
  {
    InitialLayout();
    var wp := Piece(White, Pawn, (1, 6));
    assert At(InitialGrid(), (1, 6)) == Some(wp);
    ForwardTwoOffered(wp, InitialGrid(), []);
  }

  lemma FirstMove()
    ensures Accepts(InitialState(), (1, 6), (1, 4))
    ensures AfterMove(InitialState(), (1, 6), (1, 4)) ==
      GameState(Black, AfterB4(), ["wpb4"], [InitialGrid()], None)
  {
    FirstMoveAccepted();
    InitialLayout();
    var wp := Piece(White, Pawn, (1, 6));
    assert At(InitialGrid(), (1, 6)) == Some(wp);
    assert ConvertToSan((1, 6), (1, 4), wp) == "wpb4";
  }

  /** Black replies a7-a6: accepted, recorded as `bpa6`, white to move. */
  lemma SecondMoveAccepted()
    ensures ValidGrid(AfterB4())
    ensures Accepts(GameState(Black, AfterB4(), ["wpb4"], [InitialGrid()], None), (0, 1), (0, 2))
  {
    InitialLayout();
    AfterB4Squares();
    var bp := Piece(Black, Pawn, (0, 1));
    assert ForwardOne(bp) == (0, 2);
    ForwardOneOffered(bp, AfterB4(), ["wpb4"]);
  }

  lemma SecondMove()
    ensures ValidGrid(AfterB4())
    ensures AfterMove(GameState(Black, AfterB4(), ["wpb4"], [InitialGrid()], None), (0, 1), (0, 2)) ==
      GameState(White, AfterA6(), ["wpb4", "bpa6"], [InitialGrid(), AfterB4()], None)
  {
    SecondMoveAccepted();
    AfterB4Squares();
    assert ConvertToSan((0, 1), (0, 2), Piece(Black, Pawn, (0, 1))) == "bpa6";
  }

  /** After b2-b4 and a7-a6, white's rook on a1 is offered nothing: its own pawn on a2 and knight
      on b1 block it and the other two rays leave the board at once. */
  lemma RookStillBlocked()
    ensures IsGrid(AfterA6())
    ensures Slide(AfterA6(), White, 0, 7, RookDirections) == []
  {
    AfterA6Squares();
    var g := AfterA6();
    var ds := RookDirections;
    assert Ray(g, White, 1, 7, (1, 0)) == [];
    assert Ray(g, White, -1, 7, (-1, 0)) == [];
    assert Ray(g, White, 0, 8, (0, 1)) == [];
    assert Ray(g, White, 0, 6, (0, -1)) == [];
    assert ds[..1][..0] == [] && ds[..2][..1] == ds[..1] && ds[..3][..2] == ds[..2] && ds[..3] == ds[..|ds| - 1];
    assert Slide(g, White, 0, 7, ds[..1]) == [];
    assert Slide(g, White, 0, 7, ds[..2]) == [];
    assert Slide(g, White, 0, 7, ds[..3]) == [];
  }

  /** The whole opening: b2-b4 and a7-a6 are accepted, and the rook move a1-a4 is then refused. */
  lemma OpeningScenario()
    ensures var st2 := AfterMove(AfterMove(InitialState(), (1, 6), (1, 4)), (0, 1), (0, 2));
      && ValidGrid(st2.grid)
      && st2.history == ["wpb4", "bpa6"] && st2.turn == White
      && !Accepts(st2, (0, 7), (0, 4))
  {
    FirstMove();
    SecondMove();
    RookStillBlocked();
    AfterA6Squares();
  }

  /** The moved piece keeps the position it was created with: after b2-b4 and a7-a6 the white pawn
      on b4 still believes it stands on b2, so it is offered b3 and may step back there. */
  lemma StalePawnRetreat()
    ensures var st2 := AfterMove(AfterMove(InitialState(), (1, 6), (1, 4)), (0, 1), (0, 2));
      && ValidGrid(st2.grid)
      && At(st2.grid, (1, 4)) == Some(Piece(White, Pawn, (1, 6)))
      && Accepts(st2, (1, 4), (1, 5))
  {
    FirstMove();
    SecondMove();
    AfterA6Squares();
    var st2 := GameState(White, AfterA6(), ["wpb4", "bpa6"], [InitialGrid(), AfterB4()], None);
    var wp := Piece(White, Pawn, (1, 6));
    ForwardOneOffered(wp, st2.grid, st2.history);
  }
}
