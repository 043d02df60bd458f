/**
 * The board as a value: the starting position `initialize_board` builds, and
 * the effect of `move_peice` on the board dictionary, both for a plain move
 * and for castling.
 */
module Position {
  import opened Pieces

  /** The back-rank order, file a to file h, for both colours. */
  const BackRankOrder: seq<Kind> := [Rook, Knight, Bishop, Queen, King, Bishop, Knight, Rook]

  /** The squares the starting position fills: ranks 1, 2, 7 and 8 of files 1..8. */
  predicate IsStartSquare(s: Square)
  {
    1 <= s.0 <= 8 && (s.1 == 1 || s.1 == 2 || s.1 == 7 || s.1 == 8)
  }

  /** The piece the starting position puts on a start square. */
  function StartPiece(s: Square): Piece
    requires IsStartSquare(s)
  {
    if s.1 == 2 then Piece(Pawn, White, s)
    else if s.1 == 7 then Piece(Pawn, Black, s)
    else if s.1 == 1 then Piece(BackRankOrder[s.0 - 1], White, s)
    else Piece(BackRankOrder[s.0 - 1], Black, s)
  }

  /** The pawns the first loop has placed once it has done files 1..n-1. */
  function PawnRows(n: int): Board
    requires n <= 9
    decreases n
  {
    if n <= 1 then map[]
    else
      var f := n - 1;
      PawnRows(f)[(f, 2) := Piece(Pawn, White, (f, 2))][(f, 7) := Piece(Pawn, Black, (f, 7))]
  }

  /** The board once the second loop has also done files 1..n-1 of the back ranks. */
  function Setup(n: int): Board
    requires 1 <= n <= 9
    decreases n
  {
    if n == 1 then PawnRows(n + 8)
    else
      var f := n - 1;
      var k := BackRankOrder[f - 1];
      Setup(f)[(f, 1) := Piece(k, White, (f, 1))][(f, 8) := Piece(k, Black, (f, 8))]
  }

  /** The standard starting position, white on ranks 1 and 2. */
  function StartPosition(): Board
  {
    Setup(|BackRankOrder| + 1)
  }

  lemma {:induction false} PawnRowsKeys(n: int)
    requires 1 <= n <= 9
    decreases n
    ensures forall s :: s in PawnRows(n) <==> 1 <= s.0 < n && (s.1 == 2 || s.1 == 7)
  {
    if n > 1 {
      var f := n - 1;
      PawnRowsKeys(f);
      PawnFileAdded(PawnRows(f), PawnRows(n), f);
    }
  }

  lemma PawnFileAdded(m: Board, m': Board, f: int)
    requires forall s :: s in m <==> 1 <= s.0 < f && (s.1 == 2 || s.1 == 7)
    requires 1 <= f && m' == m[(f, 2) := Piece(Pawn, White, (f, 2))][(f, 7) := Piece(Pawn, Black, (f, 7))]
    ensures forall s :: s in m' <==> 1 <= s.0 < f + 1 && (s.1 == 2 || s.1 == 7)
  {
    forall s
      ensures s in m' <==> 1 <= s.0 < f + 1 && (s.1 == 2 || s.1 == 7)
    {
      assert s in m' <==> s in m || s == (f, 2) || s == (f, 7);
    }
  }

  /** Writing two squares a map does not have yet adds two entries. */
  lemma SizeAdded(m: Board, m': Board, f: int, a: int, b: int, pa: Piece, pb: Piece)
    requires m' == m[(f, a) := pa][(f, b) := pb]
    requires (f, a) !in m && (f, b) !in m && a != b
    ensures |m'| == |m| + 2
  {
    var m1 := m[(f, a) := pa];
    assert |m1| == |m| + 1;
    assert (f, b) !in m1;
  }

  lemma {:induction false} PawnRowsValues(n: int)
    requires 1 <= n <= 9
    decreases n
    ensures forall s :: s in PawnRows(n) ==> IsStartSquare(s) && PawnRows(n)[s] == StartPiece(s)
  {
    if n > 1 {
      var f := n - 1;
      PawnRowsValues(f);
      var m := PawnRows(f);
      assert PawnRows(n) == m[(f, 2) := Piece(Pawn, White, (f, 2))][(f, 7) := Piece(Pawn, Black, (f, 7))];
    }
  }

  lemma {:induction false} PawnRowsSize(n: int)
    requires 1 <= n <= 9
    decreases n
    ensures |PawnRows(n)| == 2 * (n - 1)
  {
    if n > 1 {
      var f := n - 1;
      PawnRowsSize(f);
      PawnRowsKeys(f);
      SizeAdded(PawnRows(f), PawnRows(n), f, 2, 7, Piece(Pawn, White, (f, 2)), Piece(Pawn, Black, (f, 7)));
    }
  }

  lemma {:induction false} SetupKeys(n: int)
    requires 1 <= n <= 9
    decreases n
    ensures forall s :: s in Setup(n) <==> IsStartSquare(s) && (s.1 == 2 || s.1 == 7 || s.0 < n)
  {
    if n == 1 {
      PawnRowsKeys(n + 8);
    } else {
      var f := n - 1;
      SetupKeys(f);
      BackFileAdded(Setup(f), Setup(n), f, BackRankOrder[f - 1]);
    }
  }

  lemma BackFileAdded(m: Board, m': Board, f: int, k: Kind)
    requires forall s :: s in m <==> IsStartSquare(s) && (s.1 == 2 || s.1 == 7 || s.0 < f)
    requires 1 <= f <= 8 && m' == m[(f, 1) := Piece(k, White, (f, 1))][(f, 8) := Piece(k, Black, (f, 8))]
    ensures forall s :: s in m' <==> IsStartSquare(s) && (s.1 == 2 || s.1 == 7 || s.0 < f + 1)
  {
    forall s
      ensures s in m' <==> IsStartSquare(s) && (s.1 == 2 || s.1 == 7 || s.0 < f + 1)
    {
      assert s in m' <==> s in m || s == (f, 1) || s == (f, 8);
    }
  }

  lemma {:induction false} SetupValues(n: int)
    requires 1 <= n <= 9
    decreases n
    ensures forall s :: s in Setup(n) ==> IsStartSquare(s) && Setup(n)[s] == StartPiece(s)
  {
    if n == 1 {
      PawnRowsValues(n + 8);
    } else {
      var f := n - 1;
      SetupValues(f);
      var m := Setup(f);
      var k := BackRankOrder[f - 1];
      assert Setup(n) == m[(f, 1) := Piece(k, White, (f, 1))][(f, 8) := Piece(k, Black, (f, 8))];
      forall s | s in Setup(n)
        ensures IsStartSquare(s) && Setup(n)[s] == StartPiece(s)
      {
        if s == (f, 1) || s == (f, 8) {
          assert IsStartSquare(s);
        } else {
          assert s in m;
        }
      }
    }
  }

  lemma {:induction false} SetupSize(n: int)
    requires 1 <= n <= 9
    decreases n
    ensures |Setup(n)| == 16 + 2 * (n - 1)
  {
    if n == 1 {
      PawnRowsSize(n + 8);
    } else {
      var f := n - 1;
      var k := BackRankOrder[f - 1];
      SetupSize(f);
      SetupKeys(f);
      SizeAdded(Setup(f), Setup(n), f, 1, 8, Piece(k, White, (f, 1)), Piece(k, Black, (f, 8)));
    }
  }

  /**
   * The starting position has 32 entries, exactly on the start squares, each
   * piece stored under its own square.
   */
  lemma StartPositionContents()
    ensures forall s :: s in StartPosition() <==> IsStartSquare(s)
    ensures forall s :: s in StartPosition() ==> StartPosition()[s] == StartPiece(s)
    ensures |StartPosition()| == 32
    ensures WellFormed(StartPosition())
  {
    var n := |BackRankOrder| + 1;
    SetupKeys(n);
    SetupValues(n);
    SetupSize(n);
  }

  /** The white king starts on e1 and the black king on e8; d8 holds the black queen. */
  lemma StartKings()
    ensures (5, 1) in StartPosition() && (5, 8) in StartPosition() && (4, 8) in StartPosition()
    ensures StartPosition()[(5, 1)] == Piece(King, White, (5, 1))
    ensures StartPosition()[(5, 8)] == Piece(King, Black, (5, 8))
    ensures StartPosition()[(4, 8)] == Piece(Queen, Black, (4, 8))
    ensures forall p :: p in StartPosition().Values && p.kind == King ==> p.pos == (5, 1) || p.pos == (5, 8)
  {
    StartPositionContents();
    var b := StartPosition();
    assert IsStartSquare((5, 1)) && IsStartSquare((5, 8)) && IsStartSquare((4, 8));
    assert b[(5, 1)] == StartPiece((5, 1)) && b[(5, 8)] == StartPiece((5, 8)) && b[(4, 8)] == StartPiece((4, 8));
    forall p | p in b.Values && p.kind == King
      ensures p.pos == (5, 1) || p.pos == (5, 8)
    {
      var s :| s in b && b[s] == p;
      assert s.1 == 1 || s.1 == 8;
      assert BackRankOrder[s.0 - 1] == King;
      assert s.0 == 5;
    }
  }

  // ---------------------------------------------------------------------------
  // Move application

  /**
   * A plain move: the mover's entry is deleted and a new piece of the given
   * class and colour is written at the destination, over any piece there.
   */
  function AfterMove(board: Board, from: Square, to: Square, kind: Kind, color: Color): (r: Board)
    requires from in board
  {
    (board - {from})[to := Piece(kind, color, to)]
  }

  /**
   * The origin is emptied, the destination holds the new piece, every other
   * square keeps what it had, and the board stays well formed.
   */
  lemma MoveFrame(board: Board, from: Square, to: Square, kind: Kind, color: Color)
    requires from in board
    ensures var r := AfterMove(board, from, to, kind, color);
      && (from != to ==> from !in r)
      && to in r && r[to] == Piece(kind, color, to)
      && (forall s :: s != from && s != to ==> (s in r <==> s in board))
      && (forall s :: s != from && s != to && s in r ==> r[s] == board[s])
      && (WellFormed(board) ==> WellFormed(r))
  {
  }

  /** The board loses one entry exactly when the move captures. */
  lemma MoveSize(board: Board, from: Square, to: Square, kind: Kind, color: Color)
    requires from in board
    ensures |AfterMove(board, from, to, kind, color)| ==
      if to in board && to != from then |board| - 1 else |board|
  {
    var m := board - {from};
    assert |m| == |board| - 1 by {
      assert m.Keys == board.Keys - {from};
    }
    var r := m[to := Piece(kind, color, to)];
    if to in board && to != from {
      assert |r| == |m| by {
        assert r.Keys == m.Keys;
      }
    } else {
      assert to !in m;
    }
  }

  /** Where the castling rook lands: beside the king's destination, on the side it came from. */
  function RookLanding(to: Square, rookFrom: Square): Square
  {
    (to.0 + (if rookFrom.0 == 8 then -1 else 1), to.1)
  }

  /**
   * Castling: the king's move as a plain move, then the rook's entry deleted
   * and a new rook written beside the king's destination.
   */
  function AfterCastle(board: Board, kingFrom: Square, to: Square, kind: Kind, color: Color, rookFrom: Square): Board
    requires kingFrom in board && rookFrom in board && rookFrom != kingFrom
  {
    var b := AfterMove(board, kingFrom, to, kind, color);
    AfterMove(b, rookFrom, RookLanding(to, rookFrom), Rook, color)
  }

  /**
   * When the four squares involved differ, castling moves the king to `to`,
   * the rook next to it, and nothing else changes; both happen in one step.
   */
  lemma CastleFrame(board: Board, kingFrom: Square, to: Square, kind: Kind, color: Color, rookFrom: Square)
    requires kingFrom in board && rookFrom in board && rookFrom != kingFrom
    requires var l := RookLanding(to, rookFrom);
      to != kingFrom && to != rookFrom && l != kingFrom && l != rookFrom && l != to
    ensures var r := AfterCastle(board, kingFrom, to, kind, color, rookFrom);
      var l := RookLanding(to, rookFrom);
      && kingFrom !in r && rookFrom !in r
      && to in r && r[to] == Piece(kind, color, to)
      && l in r && r[l] == Piece(Rook, color, l)
      && (forall s :: s != kingFrom && s != rookFrom && s != to && s != l ==>
            (s in r <==> s in board) && (s in r ==> r[s] == board[s]))
      && (WellFormed(board) ==> WellFormed(r))
      && (to !in board && l !in board ==> |r| == |board|)
  {
    var l := RookLanding(to, rookFrom);
    var b := AfterMove(board, kingFrom, to, kind, color);
    MoveFrame(board, kingFrom, to, kind, color);
    MoveSize(board, kingFrom, to, kind, color);
    MoveFrame(b, rookFrom, l, Rook, color);
    MoveSize(b, rookFrom, l, Rook, color);
  }
}
