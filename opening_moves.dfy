/**
 * The move lists of the pieces in the starting position. White's pieces
 * and both sides' pawns list what chess allows: two squares for each pawn
 * and each knight, none for the rest. Black's back rank does not, because
 * the bounds test never compares the rank with 8.
 */
module OpeningMoves {
  import opened Pieces
  import opened Moves
  import opened Position

  /** `b` holds exactly the starting pieces, as `StartPositionContents` shows the starting position does. */
  ghost predicate LikeStart(b: Board)
  {
    && (forall s :: s in b <==> IsStartSquare(s))
    && (forall s :: s in b ==> b[s] == StartPiece(s))
  }

  /** A ray over the single distance 1 is that distance's attempt. */
  lemma OneDistanceRay(p: Piece, b: Board, d: Offset)
    ensures Ray(p, b, d, [1]) == Attempt(p, b, d, 1)
  {
    RayStep(p, b, d, [1], 0);
    assert [1][..1] == [1] && [1][..0] == [];
  }

  /** A ray over the distances 1 and 2 is their two attempts in order. */
  lemma TwoDistanceRay(p: Piece, b: Board, d: Offset)
    ensures Ray(p, b, d, [1, 2]) == Attempt(p, b, d, 1) + Attempt(p, b, d, 2)
  {
    var xs := [1, 2];
    RayStep(p, b, d, xs, 0);
    RayStep(p, b, d, xs, 1);
    assert xs[..2] == xs && xs[..0] == [];
  }

  /** One more direction at the end appends its ray. */
  lemma SweepSnoc(p: Piece, b: Board, front: seq<Offset>, d: Offset, xs: seq<int>)
    ensures Sweep(p, b, front + [d], xs) == Sweep(p, b, front, xs) + Ray(p, b, d, xs)
  {
    var ds := front + [d];
    assert ds[..|ds| - 1] == front && ds[|ds| - 1] == d;
  }

  /** A sweep over three directions is their three rays in order. */
  lemma ThreeDirectionSweep(p: Piece, b: Board, d0: Offset, d1: Offset, d2: Offset, xs: seq<int>)
    ensures Sweep(p, b, [d0, d1, d2], xs) == Ray(p, b, d0, xs) + Ray(p, b, d1, xs) + Ray(p, b, d2, xs)
  {
    var f1: seq<Offset> := [d0];
    var f2 := f1 + [d1];
    var f3 := f2 + [d2];
    assert f1 == [] + [d0];
    SweepSnoc(p, b, [], d0, xs);
    SweepSnoc(p, b, f1, d1, xs);
    SweepSnoc(p, b, f2, d2, xs);
    assert f3 == [d0, d1, d2];
  }

  /** A knight's list is its eight single attempts, in the order of its direction table. */
  lemma KnightList(p: Piece, b: Board)
    requires p.kind == Knight
    ensures AvailableMoves(p, b) ==
      Attempt(p, b, (-1, 2), 1) + Attempt(p, b, (1, 2), 1) + Attempt(p, b, (-2, 1), 1) + Attempt(p, b, (2, 1), 1)
      + Attempt(p, b, (-1, -2), 1) + Attempt(p, b, (1, -2), 1) + Attempt(p, b, (-2, -1), 1) + Attempt(p, b, (2, -1), 1)
  {
    var xs := [1];
    assert Distances(p) == xs;
    var d0, d1, d2, d3 := (-1, 2), (1, 2), (-2, 1), (2, 1);
    var d4, d5, d6, d7 := (-1, -2), (1, -2), (-2, -1), (2, -1);
    var f1: seq<Offset> := [d0];
    var f2 := f1 + [d1];
    var f3 := f2 + [d2];
    var f4 := f3 + [d3];
    var f5 := f4 + [d4];
    var f6 := f5 + [d5];
    var f7 := f6 + [d6];
    var f8 := f7 + [d7];
    assert f1 == [] + [d0];
    assert f8 == Directions(p);
    SweepSnoc(p, b, [], d0, xs);
    SweepSnoc(p, b, f1, d1, xs);
    SweepSnoc(p, b, f2, d2, xs);
    SweepSnoc(p, b, f3, d3, xs);
    SweepSnoc(p, b, f4, d4, xs);
    SweepSnoc(p, b, f5, d5, xs);
    SweepSnoc(p, b, f6, d6, xs);
    SweepSnoc(p, b, f7, d7, xs);
    OneDistanceRay(p, b, d0);
    OneDistanceRay(p, b, d1);
    OneDistanceRay(p, b, d2);
    OneDistanceRay(p, b, d3);
    OneDistanceRay(p, b, d4);
    OneDistanceRay(p, b, d5);
    OneDistanceRay(p, b, d6);
    OneDistanceRay(p, b, d7);
  }

  /** A pawn on rank 2 or 7 whose file ahead is free and whose diagonals are empty lists its two steps. */
  lemma PawnOnFreeFile(p: Piece, b: Board)
    requires p.kind == Pawn && (p.pos.1 == 2 || p.pos.1 == 7) && 1 <= p.pos.0 <= 8
    requires var f, r, F := p.pos.0, p.pos.1, Forward(p.color);
      && (f, r + F) !in b && (f, r + 2 * F) !in b && 1 <= r + 2 * F
      && (f - 1, r + F) !in b && (f + 1, r + F) !in b
    ensures AvailableMoves(p, b) ==
      [(p.pos.0, p.pos.1 + Forward(p.color)), (p.pos.0, p.pos.1 + 2 * Forward(p.color))]
  {
    var F := Forward(p.color);
    var ahead, west, east := (0, F), (-1, F), (1, F);
    assert Directions(p) == [ahead, west, east] && Distances(p) == [1, 2];
    ThreeDirectionSweep(p, b, ahead, west, east, [1, 2]);
    TwoDistanceRay(p, b, ahead);
    TwoDistanceRay(p, b, west);
    TwoDistanceRay(p, b, east);
    ValidMoveMeaning(p, b, ahead, 1);
    ValidMoveMeaning(p, b, ahead, 2);
    ValidMoveMeaning(p, b, west, 1);
    ValidMoveMeaning(p, b, east, 1);
  }

  /** Every pawn of the starting position stands on a free file with empty diagonals. */
  lemma PawnOpening(p: Piece, b: Board)
    requires LikeStart(b) && p.pos in b && b[p.pos] == p && p.kind == Pawn
    ensures AvailableMoves(p, b) ==
      [(p.pos.0, p.pos.1 + Forward(p.color)), (p.pos.0, p.pos.1 + 2 * Forward(p.color))]
  {
    var f, r, F := p.pos.0, p.pos.1, Forward(p.color);
    assert p == StartPiece(p.pos);
    assert (r == 2 && F == 1) || (r == 7 && F == -1);
    assert !IsStartSquare((f, r + F)) && !IsStartSquare((f, r + 2 * F));
    assert !IsStartSquare((f - 1, r + F)) && !IsStartSquare((f + 1, r + F));
    PawnOnFreeFile(p, b);
  }

  /** The one-step square along `d` when it passes the bounds test and holds no own piece. */
  function LeaperSingle(p: Piece, b: Board, d: Offset): seq<Square>
  {
    var t := Target(p.pos, d, 1);
    if 1 <= t.0 <= 8 && 1 <= t.1 && NotOwn(b, p, t) then [t] else []
  }

  /** What a knight or king appends for one of its directions. */
  lemma LeaperAttempt(p: Piece, b: Board, d: Offset)
    requires Leaper(p.kind)
    ensures Attempt(p, b, d, 1) == LeaperSingle(p, b, d)
  {
    ValidMoveMeaning(p, b, d, 1);
  }

  /** A knight's list, with each of its eight attempts spelled out. */
  lemma KnightAttempts(p: Piece, b: Board)
    requires p.kind == Knight
    ensures AvailableMoves(p, b) ==
      Attempt(p, b, (-1, 2), 1) + Attempt(p, b, (1, 2), 1) + Attempt(p, b, (-2, 1), 1) + Attempt(p, b, (2, 1), 1)
      + Attempt(p, b, (-1, -2), 1) + Attempt(p, b, (1, -2), 1) + Attempt(p, b, (-2, -1), 1) + Attempt(p, b, (2, -1), 1)
    ensures Attempt(p, b, (-1, 2), 1) == LeaperSingle(p, b, (-1, 2))
    ensures Attempt(p, b, (1, 2), 1) == LeaperSingle(p, b, (1, 2))
    ensures Attempt(p, b, (-2, 1), 1) == LeaperSingle(p, b, (-2, 1))
    ensures Attempt(p, b, (2, 1), 1) == LeaperSingle(p, b, (2, 1))
    ensures Attempt(p, b, (-1, -2), 1) == LeaperSingle(p, b, (-1, -2))
    ensures Attempt(p, b, (1, -2), 1) == LeaperSingle(p, b, (1, -2))
    ensures Attempt(p, b, (-2, -1), 1) == LeaperSingle(p, b, (-2, -1))
    ensures Attempt(p, b, (2, -1), 1) == LeaperSingle(p, b, (2, -1))
  {
    KnightList(p, b);
    LeaperAttempt(p, b, (-1, 2));
    LeaperAttempt(p, b, (1, 2));
    LeaperAttempt(p, b, (-2, 1));
    LeaperAttempt(p, b, (2, 1));
    LeaperAttempt(p, b, (-1, -2));
    LeaperAttempt(p, b, (1, -2));
    LeaperAttempt(p, b, (-2, -1));
    LeaperAttempt(p, b, (2, -1));
  }

  /** A white knight on b1 or g1 with rank 3 beside it empty and its own pawns on rank 2 lists just those two squares. */
  lemma WhiteKnightOnBackRank(p: Piece, b: Board)
    requires p.kind == Knight && p.color == White && p.pos.1 == 1 && (p.pos.0 == 2 || p.pos.0 == 7)
    requires (p.pos.0 - 1, 3) !in b && (p.pos.0 + 1, 3) !in b
    requires var s := if p.pos.0 == 2 then (4, 2) else (5, 2); s in b && b[s].color == White
    ensures AvailableMoves(p, b) == [(p.pos.0 - 1, 3), (p.pos.0 + 1, 3)]
  {
    KnightAttempts(p, b);
  }

  /** A white knight of the starting position lists the two squares of rank 3 next to its file, and nothing else. */
  lemma WhiteKnightOpening(p: Piece, b: Board)
    requires LikeStart(b) && p.pos in b && b[p.pos] == p && p.kind == Knight && p.color == White
    ensures AvailableMoves(p, b) == [(p.pos.0 - 1, 3), (p.pos.0 + 1, 3)]
  {
    assert p == StartPiece(p.pos);
    var f := p.pos.0;
    assert p.pos.1 == 1 && (f == 2 || f == 7);
    assert !IsStartSquare((f - 1, 3)) && !IsStartSquare((f + 1, 3));
    var s := if f == 2 then (4, 2) else (5, 2);
    assert IsStartSquare(s) && b[s] == StartPiece(s);
    WhiteKnightOnBackRank(p, b);
  }

  /** White's rooks, bishops, queen and king start walled in by their own pieces and the board's edge. */
  lemma WhiteBackRankStuck(p: Piece, b: Board, s: Square)
    requires LikeStart(b) && p.pos in b && b[p.pos] == p && p.color == White
    requires p.kind != Pawn && p.kind != Knight
    ensures s !in AvailableMoves(p, b)
  {
    if s in AvailableMoves(p, b) {
      var d, x := ListedWitness(p, b, s);
      ValidMoveMeaning(p, b, d, x);
      assert p == StartPiece(p.pos);
      assert p.pos.1 == 1 && 1 <= p.pos.0 <= 8;
      assert -1 <= d.0 <= 1 && -1 <= d.1 <= 1 && 1 <= x;
      var t := Target(p.pos, d, 1);
      if d.1 == -1 {
        assert false;
      } else if 1 <= t.0 <= 8 {
        assert false;
      } else {
        assert false;
      }
    }
  }

  /** A list in which no square occurs is empty. */
  lemma NothingListed(l: seq<Square>)
    ensures (forall t :: t !in l) ==> l == []
  {
    if l != [] {
      assert l[0] in l;
    }
  }

  /** The starting position is a board holding exactly the starting pieces. */
  lemma StartIsLikeStart()
    ensures LikeStart(StartPosition())
  {
    StartPositionContents();
  }

  /** The move lists on any board holding exactly the starting pieces. */
  lemma OpeningMovesOn(p: Piece, s: Square, b: Board)
    requires LikeStart(b) && p in b.Values && (p.color == White || p.kind == Pawn)
    ensures s in AvailableMoves(p, b) <==>
      || (p.kind == Pawn && (s == (p.pos.0, p.pos.1 + Forward(p.color)) || s == (p.pos.0, p.pos.1 + 2 * Forward(p.color))))
      || (p.kind == Knight && (s == (p.pos.0 - 1, p.pos.1 + 2) || s == (p.pos.0 + 1, p.pos.1 + 2)))
    ensures |AvailableMoves(p, b)| == if p.kind == Pawn || p.kind == Knight then 2 else 0
  {
    var q :| q in b && b[q] == p;
    assert p == StartPiece(q);
    if p.kind == Pawn {
      PawnOpening(p, b);
    } else if p.kind == Knight {
      WhiteKnightOpening(p, b);
    } else {
      forall t | true
        ensures t !in AvailableMoves(p, b)
      {
        WhiteBackRankStuck(p, b, t);
      }
      NothingListed(AvailableMoves(p, b));
    }
  }

  /**
   * In the starting position a pawn lists its one- and two-square steps and
   * a white knight the two squares of rank 3 next to its file; white's other
   * pieces list nothing.
   */
  lemma StartPositionMoves(p: Piece, s: Square)
    requires p in StartPosition().Values && (p.color == White || p.kind == Pawn)
    ensures s in AvailableMoves(p, StartPosition()) <==>
      || (p.kind == Pawn && (s == (p.pos.0, p.pos.1 + Forward(p.color)) || s == (p.pos.0, p.pos.1 + 2 * Forward(p.color))))
      || (p.kind == Knight && (s == (p.pos.0 - 1, p.pos.1 + 2) || s == (p.pos.0 + 1, p.pos.1 + 2)))
    ensures |AvailableMoves(p, StartPosition())| == if p.kind == Pawn || p.kind == Knight then 2 else 0
  {
    StartIsLikeStart();
    OpeningMovesOn(p, s, StartPosition());
  }

  /** A piece lists the one-step square along one of its directions when that square is free and passes the bounds test. */
  lemma FreeStepListed(p: Piece, b: Board, d: Offset)
    requires p.kind != Pawn && d in Directions(p)
    requires var t := Target(p.pos, d, 1); 1 <= t.0 <= 8 && 1 <= t.1 && t !in b
    ensures Target(p.pos, d, 1) in AvailableMoves(p, b)
  {
    var t := Target(p.pos, d, 1);
    ValidMoveMeaning(p, b, d, 1);
    assert Distances(p)[0] == 1 && t in Attempt(p, b, d, 1);
    MovesMembership(p, b, t);
  }

  /** On any board holding exactly the starting pieces, each black back-rank piece lists a square above rank 8. */
  lemma BlackLeavesOn(p: Piece, b: Board)
    requires LikeStart(b) && p in b.Values && p.color == Black && p.kind != Pawn
    ensures exists t :: t in AvailableMoves(p, b) && t.1 > 8
  {
    var q :| q in b && b[q] == p;
    assert p == StartPiece(q);
    var f := p.pos.0;
    assert p.pos.1 == 8 && 1 <= f <= 8;
    assert p.kind == Knight ==> f == 2 || f == 7;
    assert p.kind == Bishop ==> f == 3 || f == 6;
    var d := if p.kind == Knight then (-1, 2) else if p.kind == Bishop then (1, 1) else (0, 1);
    var t := Target(p.pos, d, 1);
    assert t.1 > 8 && !IsStartSquare(t);
    FreeStepListed(p, b, d);
  }

  /**
   * Black's back rank is not walled in: in the starting position each of its
   * pieces lists a square above rank 8, which passes the bounds test.
   */
  lemma BlackBackRankLeavesBoard(p: Piece)
    requires p in StartPosition().Values && p.color == Black && p.kind != Pawn
    ensures exists t :: t in AvailableMoves(p, StartPosition()) && t.1 > 8
  {
    StartIsLikeStart();
    BlackLeavesOn(p, StartPosition());
  }

  /** The black knight on b8 lists five squares, two of them on rank 10 and one on rank 9. */
  lemma BlackKnightOpening()
    ensures AvailableMoves(Piece(Knight, Black, (2, 8)), StartPosition()) == [(1, 10), (3, 10), (4, 9), (1, 6), (3, 6)]
  {
    var b := StartPosition();
    StartIsLikeStart();
    assert !IsStartSquare((1, 10)) && !IsStartSquare((3, 10)) && !IsStartSquare((4, 9));
    assert !IsStartSquare((1, 6)) && !IsStartSquare((3, 6));
    assert IsStartSquare((4, 7)) && b[(4, 7)] == StartPiece((4, 7));
    BlackKnightOnBackRank(Piece(Knight, Black, (2, 8)), b);
  }

  /** The b8 knight's list on any board with those five squares empty and its own piece on d7. */
  lemma BlackKnightOnBackRank(p: Piece, b: Board)
    requires p == Piece(Knight, Black, (2, 8))
    requires (1, 10) !in b && (3, 10) !in b && (4, 9) !in b && (1, 6) !in b && (3, 6) !in b
    requires (4, 7) in b && b[(4, 7)].color == Black
    ensures AvailableMoves(p, b) == [(1, 10), (3, 10), (4, 9), (1, 6), (3, 6)]
  {
    KnightAttempts(p, b);
  }
}
