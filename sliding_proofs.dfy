/** What the sliding generators compute: soundness, completeness and the blocking rule. */
module SlidingProofs {
  import opened Seqs
  import opened Pieces
  import opened Boards
  import opened Sliding
  /** Prepending an empty first square to a ray walked from one step further on. */
  lemma RayFactsStep(g: Grid, c: Colour, x: int, y: int, d: Direction, rest: seq<Square>)
    requires IsGrid(g)
    requires InBounds((x + d.0, y + d.1)) && At(g, (x + d.0, y + d.1)).None?
    requires RayFacts(g, c, x + d.0, y + d.1, d, rest)
    ensures RayFacts(g, c, x, y, d, [(x + d.0, y + d.1)] + rest)
  {
    var r := [(x + d.0, y + d.1)] + rest;
    assert Step(x, y, d, 1) == (x + d.0, y + d.1);
    forall k | 1 <= k < |r|
      ensures r[k] == Step(x, y, d, k + 1) && InBounds(r[k])
    {
      StepShift(x, y, d, k);
      assert r[k] == rest[k - 1];
    }
    forall k | 1 <= k < |r| - 1
      ensures At(g, r[k]).None?
    {
      assert r[k] == rest[k - 1];
    }
    StepShift(x, y, d, |rest| + 1);
    if |rest| > 0 {
      assert r[|r| - 1] == rest[|rest| - 1];
    }
  }

  /** A ray whose first square is off the board or occupied. */
  lemma RayFactsEnd(g: Grid, c: Colour, x: int, y: int, d: Direction)
    requires IsGrid(g)
    requires !(InBounds((x + d.0, y + d.1)) && At(g, (x + d.0, y + d.1)).None?)
    ensures var s := (x + d.0, y + d.1);
      RayFacts(g, c, x, y, d, if InBounds(s) && At(g, s).value.colour != c then [s] else [])
  {
    assert Step(x, y, d, 1) == (x + d.0, y + d.1);
  }

  /** RayFacts of a ray whose first square is empty follow from those of the rest of the ray. */
  lemma RayFactsCons(g: Grid, c: Colour, x: int, y: int, d: Direction)
    requires IsGrid(g)
    requires InBounds((x + d.0, y + d.1)) && At(g, (x + d.0, y + d.1)).None?
    requires RayFacts(g, c, x + d.0, y + d.1, d, Ray(g, c, x + d.0 + d.0, y + d.1 + d.1, d))
    ensures RayFacts(g, c, x, y, d, Ray(g, c, x + d.0, y + d.1, d))
  {
    var rest := Ray(g, c, x + d.0 + d.0, y + d.1 + d.1, d);
    assert Ray(g, c, x + d.0, y + d.1, d) == [(x + d.0, y + d.1)] + rest;
    RayFactsStep(g, c, x, y, d, rest);
  }

  /** RayFacts of a ray whose first square is off the board or occupied. */
  lemma RayFactsStop(g: Grid, c: Colour, x: int, y: int, d: Direction)
    requires IsGrid(g)
    requires !(InBounds((x + d.0, y + d.1)) && At(g, (x + d.0, y + d.1)).None?)
    ensures RayFacts(g, c, x, y, d, Ray(g, c, x + d.0, y + d.1, d))
  {
    var s := (x + d.0, y + d.1);
    assert Ray(g, c, x + d.0, y + d.1, d) == if InBounds(s) && At(g, s).value.colour != c then [s] else [];
    RayFactsEnd(g, c, x, y, d);
  }

  /** Every ray satisfies RayFacts. */
  lemma {:induction false} RayHasFacts(g: Grid, c: Colour, x: int, y: int, d: Direction)
    requires IsGrid(g)
    ensures RayFacts(g, c, x, y, d, Ray(g, c, x + d.0, y + d.1, d))
    decreases Remaining(x + d.0, y + d.1, d)
  {
    if InBounds((x + d.0, y + d.1)) && At(g, (x + d.0, y + d.1)).None? {
      RayHasFacts(g, c, x + d.0, y + d.1, d);
      RayFactsCons(g, c, x, y, d);
    } else {
      RayFactsStop(g, c, x, y, d);
    }
  }

  /** Every square of a ray with RayFacts is reached from (x, y). */
  lemma FactsSound(g: Grid, c: Colour, x: int, y: int, d: Direction, r: seq<Square>, i: int)
    requires IsGrid(g) && RayFacts(g, c, x, y, d, r) && 0 <= i < |r|
    ensures r[i] == Step(x, y, d, i + 1) && Reaches(g, c, x, y, d, i + 1)
  {
    forall j | 1 <= j < i + 1
      ensures InBounds(Step(x, y, d, j)) && At(g, Step(x, y, d, j)).None?
    {
      assert r[j - 1] == Step(x, y, d, j);
    }
    if i < |r| - 1 {
      assert At(g, r[i]).None?;
    }
  }

  /** Every square reached from (x, y) along d is on a ray with RayFacts. */
  lemma FactsComplete(g: Grid, c: Colour, x: int, y: int, d: Direction, r: seq<Square>, k: int)
    requires IsGrid(g) && RayFacts(g, c, x, y, d, r) && Reaches(g, c, x, y, d, k)
    ensures k - 1 < |r| && r[k - 1] == Step(x, y, d, k)
  {
    var n := |r|;
    if n < k {
      assert false;
    }
  }

  /** Every square of a ray started one step from (x, y) is reached from (x, y). */
  lemma RaySound(g: Grid, c: Colour, x: int, y: int, d: Direction, m: Square)
    requires IsGrid(g)
    requires m in Ray(g, c, x + d.0, y + d.1, d)
    ensures exists k :: m == Step(x, y, d, k) && Reaches(g, c, x, y, d, k)
  {
    var r := Ray(g, c, x + d.0, y + d.1, d);
    RayHasFacts(g, c, x, y, d);
    var i :| 0 <= i < |r| && r[i] == m;
    FactsSound(g, c, x, y, d, r, i);
  }

  /** Every square reached from (x, y) along d is on the ray. */
  lemma RayComplete(g: Grid, c: Colour, x: int, y: int, d: Direction, k: int)
    requires IsGrid(g) && Reaches(g, c, x, y, d, k)
    ensures Step(x, y, d, k) in Ray(g, c, x + d.0, y + d.1, d)
  {
    var r := Ray(g, c, x + d.0, y + d.1, d);
    RayHasFacts(g, c, x, y, d);
    FactsComplete(g, c, x, y, d, r, k);
  }

  /** Soundness of sliding candidates: each one lies on one of the direction rays, is on the board,
      is empty or held by the other side, and every square strictly before it on that ray is empty. */
  lemma {:induction false} SlideSound(g: Grid, c: Colour, x: int, y: int, dirs: seq<Direction>, m: Square)
    requires IsGrid(g)
    requires m in Slide(g, c, x, y, dirs)
    ensures InBounds(m) && Open(g, c, m)
    ensures exists i, k :: 0 <= i < |dirs| && m == Step(x, y, dirs[i], k) && Reaches(g, c, x, y, dirs[i], k)
  {
    var n := |dirs| - 1;
    var d := dirs[n];
    var front := dirs[..n];
    assert Slide(g, c, x, y, dirs) == Slide(g, c, x, y, front) + Ray(g, c, x + d.0, y + d.1, d);
    if m in Slide(g, c, x, y, front) {
      SlideSound(g, c, x, y, front, m);
      var i, k :| 0 <= i < |front| && m == Step(x, y, front[i], k) && Reaches(g, c, x, y, front[i], k);
      assert front[i] == dirs[i];
    } else {
      RaySound(g, c, x, y, d, m);
      var k :| m == Step(x, y, d, k) && Reaches(g, c, x, y, d, k);
      assert dirs[n] == d;
    }
  }

  /** Completeness of sliding candidates: every square reached along one of the directions is one. */
  lemma {:induction false} SlideComplete(g: Grid, c: Colour, x: int, y: int, dirs: seq<Direction>, i: int, k: int)
    requires IsGrid(g) && 0 <= i < |dirs|
    requires Reaches(g, c, x, y, dirs[i], k)
    ensures Step(x, y, dirs[i], k) in Slide(g, c, x, y, dirs)
  {
    var n := |dirs| - 1;
    var front, d := dirs[..n], dirs[n];
    var m := Step(x, y, dirs[i], k);
    assert Slide(g, c, x, y, dirs) == Slide(g, c, x, y, front) + Ray(g, c, x + d.0, y + d.1, d);
    if i < n {
      assert front[i] == dirs[i];
      SlideComplete(g, c, x, y, front, i, k);
      assert m in Slide(g, c, x, y, front);
    } else {
      RayComplete(g, c, x, y, d, k);
      assert m in Ray(g, c, x + d.0, y + d.1, d);
    }
  }

  /** From one origin, two unit directions reach the same square only if they are the same
      direction and the same number of steps. */
  lemma StepInjective(x: int, y: int, d: Direction, k: int, e: Direction, j: int)
    requires 1 <= k && 1 <= j
    requires Step(x, y, d, k) == Step(x, y, e, j)
    ensures d == e && k == j
  {
    assert Scale(k, d.0) == Scale(j, e.0) && Scale(k, d.1) == Scale(j, e.1);
  }

  /** Nothing beyond the first occupied square of a ray is a candidate. */
  lemma NothingBeyondBlocker(g: Grid, c: Colour, x: int, y: int, dirs: seq<Direction>, i: int, j: int, k: int)
    requires IsGrid(g) && 0 <= i < |dirs| && 1 <= j < k
    requires InBounds(Step(x, y, dirs[i], j)) && At(g, Step(x, y, dirs[i], j)).Some?
    ensures Step(x, y, dirs[i], k) !in Slide(g, c, x, y, dirs)
  {
    var m := Step(x, y, dirs[i], k);
    if m in Slide(g, c, x, y, dirs) {
      SlideSound(g, c, x, y, dirs, m);
      var i', k' :| 0 <= i' < |dirs| && m == Step(x, y, dirs[i'], k') && Reaches(g, c, x, y, dirs[i'], k');
      StepInjective(x, y, dirs[i], k, dirs[i'], k');
      assert false;
    }
  }

  /** Adding one direction at the end adds its ray at the end. */
  lemma SlideSnoc(g: Grid, c: Colour, x: int, y: int, s: seq<Direction>, d: Direction)
    requires IsGrid(g)
    ensures Slide(g, c, x, y, s + [d]) == Slide(g, c, x, y, s) + Ray(g, c, x + d.0, y + d.1, d)
  {
    assert (s + [d])[..|s|] == s;
  }

  lemma SlideAppendStep(g: Grid, c: Colour, x: int, y: int, a: seq<Direction>, b: seq<Direction>, d: Direction)
    requires IsGrid(g)
    requires Slide(g, c, x, y, a + b) == Slide(g, c, x, y, a) + Slide(g, c, x, y, b)
    ensures Slide(g, c, x, y, a + (b + [d])) == Slide(g, c, x, y, a) + Slide(g, c, x, y, b + [d])
  {
    assert a + (b + [d]) == (a + b) + [d];
    SlideSnoc(g, c, x, y, a + b, d);
    SlideSnoc(g, c, x, y, b, d);
    AppendAssoc(Slide(g, c, x, y, a), Slide(g, c, x, y, b), Ray(g, c, x + d.0, y + d.1, d));
  }

  /** Walking the directions a and then b gives a's candidates followed by b's. */
  lemma {:induction false} SlideAppend(g: Grid, c: Colour, x: int, y: int, a: seq<Direction>, b: seq<Direction>)
    requires IsGrid(g)
    ensures Slide(g, c, x, y, a + b) == Slide(g, c, x, y, a) + Slide(g, c, x, y, b)
    decreases |b|
  {
    if b == [] {
      assert a + b == a;
    } else {
      var n := |b| - 1;
      SlideAppend(g, c, x, y, a, b[..n]);
      SlideAppendStep(g, c, x, y, a, b[..n], b[n]);
      assert b[..n] + [b[n]] == b;
    }
  }

  /** The queen walks the bishop's directions and then the rook's, so its candidates
      are the bishop's followed by the rook's. */
  lemma QueenIsBishopThenRook(g: Grid, c: Colour, x: int, y: int)
    requires IsGrid(g)
    ensures Slide(g, c, x, y, QueenDirections) ==
      Slide(g, c, x, y, BishopDirections) + Slide(g, c, x, y, RookDirections)
  {
    assert QueenDirections == BishopDirections + RookDirections;
    SlideAppend(g, c, x, y, BishopDirections, RookDirections);
  }


  /** The square m is k steps from (x, y) along a rook direction or along a bishop direction. */
  predicate Orthogonal(x: int, y: int, m: Square) {
    (m.0 == x) != (m.1 == y)
  }

  predicate Diagonal(x: int, y: int, m: Square) {
    Abs(m.0 - x) == Abs(m.1 - y) && m.0 != x
  }

  /** Walking k >= 1 steps along a rook direction stays on a row or column, along a bishop
      direction on a diagonal. */
  lemma StepLine(x: int, y: int, d: Direction, k: int)
    requires 1 <= k
    ensures (d.0 == 0 || d.1 == 0) ==> Orthogonal(x, y, Step(x, y, d, k))
    ensures (d.0 != 0 && d.1 != 0) ==> Diagonal(x, y, Step(x, y, d, k))
  {
  }

  /** A rook is offered only squares of its own row or column, never its own square. */
  lemma RookLines(g: Grid, c: Colour, x: int, y: int, m: Square)
    requires IsGrid(g) && m in Slide(g, c, x, y, RookDirections)
    ensures Orthogonal(x, y, m)
  {
    SlideSound(g, c, x, y, RookDirections, m);
    var i, k :| 0 <= i < 4 && m == Step(x, y, RookDirections[i], k) && Reaches(g, c, x, y, RookDirections[i], k);
    StepLine(x, y, RookDirections[i], k);
  }

  /** A bishop is offered only squares of its own diagonals, never its own square. */
  lemma BishopLines(g: Grid, c: Colour, x: int, y: int, m: Square)
    requires IsGrid(g) && m in Slide(g, c, x, y, BishopDirections)
    ensures Diagonal(x, y, m)
  {
    SlideSound(g, c, x, y, BishopDirections, m);
    var i, k :| 0 <= i < 4 && m == Step(x, y, BishopDirections[i], k) && Reaches(g, c, x, y, BishopDirections[i], k);
    StepLine(x, y, BishopDirections[i], k);
  }

  /** A queen is offered only squares a rook or a bishop on its square could reach in shape. */
  lemma QueenLines(g: Grid, c: Colour, x: int, y: int, m: Square)
    requires IsGrid(g) && m in Slide(g, c, x, y, QueenDirections)
    ensures Orthogonal(x, y, m) || Diagonal(x, y, m)
  {
    SlideSound(g, c, x, y, QueenDirections, m);
    var i, k :| 0 <= i < 8 && m == Step(x, y, QueenDirections[i], k) && Reaches(g, c, x, y, QueenDirections[i], k);
    StepLine(x, y, QueenDirections[i], k);
  }
}
