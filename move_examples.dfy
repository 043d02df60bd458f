/** Concrete positions that show what the move lists contain. */
module MoveExamples {
  import opened Pieces
  import opened Moves

  /** A pawn on rank 2 lists a capture square once per distance tried. */
  lemma PawnCaptureListedTwice()
    ensures var pawn := Piece(Pawn, White, (1, 2));
      var board := map[(1, 2) := pawn, (2, 3) := Piece(Knight, Black, (2, 3))];
      AvailableMoves(pawn, board) == [(1, 3), (1, 4), (2, 3), (2, 3)]
  {
    var pawn := Piece(Pawn, White, (1, 2));
    var board := map[(1, 2) := pawn, (2, 3) := Piece(Knight, Black, (2, 3))];
    var xs := [1, 2];
    var ds := [(0, 1), (-1, 1), (1, 1)];
    assert Distances(pawn) == xs && Directions(pawn) == ds;
    assert Ray(pawn, board, (0, 1), xs) == [(1, 3), (1, 4)] by {
      assert ValidMove(pawn, board, (0, 1), 1) && ValidMove(pawn, board, (0, 1), 2);
      assert xs[..1] == [1];
    }
    assert Ray(pawn, board, (-1, 1), xs) == [] by {
      assert !ValidMove(pawn, board, (-1, 1), 1);
      assert xs[..1] == [1];
    }
    assert Ray(pawn, board, (1, 1), xs) == [(2, 3), (2, 3)] by {
      assert ValidMove(pawn, board, (1, 1), 1);
      assert xs[..1] == [1];
    }
    assert Sweep(pawn, board, ds[..2], xs) == [(1, 3), (1, 4)] by {
      assert ds[..2][..1] == [(0, 1)] && ds[..2] == [(0, 1), (-1, 1)];
      assert Sweep(pawn, board, ds[..1], xs) == [(1, 3), (1, 4)];
    }
  }

  /** How many of the distances 1..n along `d` pass the bounds test. */
  function InBoundsCount(from: Square, d: Offset, n: nat): nat
  {
    if n == 0 then 0
    else
      var inside := 1 <= Target(from, d, n).0 <= 8 && 1 <= Target(from, d, n).1;
      InBoundsCount(from, d, n - 1) + (if inside then 1 else 0)
  }

  /** On the empty board a rook's ray holds every distance that passes the bounds test. */
  lemma {:induction false} EmptyBoardRay(p: Piece, d: Offset, n: nat)
    requires p.kind == Rook && n <= 7
    ensures |Ray(p, map[], d, Distances(p)[..n])| == InBoundsCount(p.pos, d, n)
  {
    if n > 0 {
      EmptyBoardRay(p, d, n - 1);
      RayStep(p, map[], d, Distances(p), n - 1);
      assert Distances(p)[n - 1] == n;
      ValidMoveMeaning(p, map[], d, n);
    }
  }

  /**
   * A rook on d4 of an otherwise empty board lists 17 squares, not 14:
   * ranks 9, 10 and 11 of its file pass the bounds test.
   */
  lemma CentreRookOnEmptyBoard()
    ensures |AvailableMoves(Piece(Rook, White, (4, 4)), map[])| == 17
  {
    var rook := Piece(Rook, White, (4, 4));
    var xs := Distances(rook);
    var ds := Directions(rook);
    assert xs[..7] == xs;
    EmptyBoardRay(rook, (0, 1), 7);
    EmptyBoardRay(rook, (0, -1), 7);
    EmptyBoardRay(rook, (1, 0), 7);
    EmptyBoardRay(rook, (-1, 0), 7);
    assert InBoundsCount((4, 4), (0, 1), 7) == 7;
    assert InBoundsCount((4, 4), (0, -1), 7) == 3;
    assert InBoundsCount((4, 4), (1, 0), 7) == 4;
    assert InBoundsCount((4, 4), (-1, 0), 7) == 3;
    assert ds[..0] == [];
    SweepStep(rook, map[], ds, xs, 0);
    SweepStep(rook, map[], ds, xs, 1);
    SweepStep(rook, map[], ds, xs, 2);
    SweepStep(rook, map[], ds, xs, 3);
    assert ds[..4] == ds;
  }
}
