/**
 * A back-rank position run through the `checkmate` heuristic: a lone rook
 * on a1 against a king on h1 walled in by its own pawns is mate, and a
 * second white rook on a8 that can take the checking rook lifts it.
 */
module AttackExamples {
  import opened Pieces
  import opened Moves
  import opened Attacks

  const WhiteKing := Piece(King, White, (8, 1))
  const PawnG := Piece(Pawn, White, (7, 2))
  const PawnH := Piece(Pawn, White, (8, 2))
  const BlackRook := Piece(Rook, Black, (1, 1))
  const WhiteRook := Piece(Rook, White, (1, 8))

  function BackRank(): Board
  {
    map[(8, 1) := WhiteKing, (7, 2) := PawnG, (8, 2) := PawnH, (1, 1) := BlackRook]
  }

  /** The rook on a1 gives check along the first rank. */
  lemma BackRankCheck(b: Board)
    requires b == BackRank()
    ensures WhiteKing in OpponentKings(b, Black) && BlackRook in Side(b, Black)
    ensures WhiteKing.pos in AvailableMoves(BlackRook, b)
  {
    assert b[(8, 1)] == WhiteKing && b[(1, 1)] == BlackRook;
    var d := (1, 0);
    assert d in Directions(BlackRook);
    assert ClearPath(b, BlackRook.pos, d, 7);
    SliderMoves(BlackRook, b, WhiteKing.pos);
  }

  /** The only square the king lists is g1, and the rook lists it too. */
  lemma BackRankNoFlight(b: Board)
    requires b == BackRank()
    ensures !CanFlee(b, Black, WhiteKing)
  {
    forall s | s in AvailableMoves(WhiteKing, b)
      ensures Attacked(b, Black, s)
    {
      KingListsOnlyG1(b, s);
      RookCoversG1(b);
    }
  }

  lemma KingListsOnlyG1(b: Board, s: Square)
    requires b == BackRank() && s in AvailableMoves(WhiteKing, b)
    ensures s == (7, 1)
  {
    LeaperMoves(WhiteKing, b, s);
    var d :| d in Directions(WhiteKing) && s == Target(WhiteKing.pos, d, 1);
  }

  lemma RookCoversG1(b: Board)
    requires b == BackRank()
    ensures Attacked(b, Black, (7, 1))
  {
    assert b[(1, 1)] == BlackRook;
    assert BlackRook in Side(b, Black);
    assert ClearPath(b, BlackRook.pos, (1, 0), 6);
    SliderMoves(BlackRook, b, (7, 1));
  }

  /** The white pieces other than the king are the two pawns. */
  lemma BackRankDefenders(b: Board)
    requires b == BackRank()
    ensures Defenders(b, Black) == {PawnG, PawnH}
  {
    forall e | e in b.Values
      ensures e == WhiteKing || e == PawnG || e == PawnH || e == BlackRook
    {
      var k :| k in b && b[k] == e;
    }
    assert b[(7, 2)] == PawnG && b[(8, 2)] == PawnH;
  }

  /** Neither pawn can take the rook or reach the first rank to block. */
  lemma BackRankPawnsReachRanksThreeAndFour(b: Board, e: Piece, s: Square)
    requires b == BackRank() && e in Defenders(b, Black) && s in AvailableMoves(e, b)
    ensures 3 <= s.1 <= 4
  {
    BackRankDefenders(b);
    PawnAdvances(e, b, s);
  }

  lemma BackRankMate(b: Board)
    requires b == BackRank()
    ensures IsMate(b, Black, BlackRook, WhiteKing)
  {
    forall e | e in Defenders(b, Black)
      ensures BlackRook.pos !in AvailableMoves(e, b)
    {
      if BlackRook.pos in AvailableMoves(e, b) {
        BackRankPawnsReachRanksThreeAndFour(b, e, BlackRook.pos);
      }
    }
    BackRankNoFlight(b);
    forall e, s | e in Defenders(b, Black) && s in AvailableMoves(e, b)
      ensures !Interposes(BlackRook, WhiteKing, s)
    {
      BackRankPawnsReachRanksThreeAndFour(b, e, s);
    }
  }

  /** With a white rook on a8 the checking rook can be taken, so it is not mate. */
  lemma RookOnA8LiftsMate(b: Board)
    requires b == BackRank()[(1, 8) := WhiteRook]
    ensures !IsMate(b, Black, BlackRook, WhiteKing)
  {
    assert b[(1, 8)] == WhiteRook && b[(1, 1)] == BlackRook;
    assert WhiteRook in Defenders(b, Black);
    assert ClearPath(b, WhiteRook.pos, (0, -1), 7);
    SliderMoves(WhiteRook, b, BlackRook.pos);
  }
}
