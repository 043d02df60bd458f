/**
 * What `check` and `checkmate` ask of a position, as predicates over the
 * board: who can reach the king, and the three ways out of check the
 * heuristic looks for (capture the checking piece, move the king, block).
 */
module Attacks {
  import opened Pieces
  import opened Moves

  /** The pieces of colour `c` (`my`). */
  function Side(board: Board, c: Color): set<Piece>
  {
    set p | p in board.Values && p.color == c
  }

  /** The kings not of colour `c` (`king` in `check`). */
  function OpponentKings(board: Board, c: Color): set<Piece>
  {
    set p | p in board.Values && p.kind == King && p.color != c
  }

  /** The other colour's pieces except its king (`op` in `checkmate`). */
  function Defenders(board: Board, c: Color): set<Piece>
  {
    set p | p in board.Values && p.color != c && p.kind != King
  }

  /** Some piece of colour `c` lists `s` among its moves. */
  predicate Attacked(board: Board, c: Color, s: Square)
  {
    exists e :: e in Side(board, c) && s in AvailableMoves(e, board)
  }

  /** First way out: a defender lists the checking piece's square. */
  predicate CanCapture(board: Board, c: Color, attacker: Piece)
  {
    exists e :: e in Defenders(board, c) && attacker.pos in AvailableMoves(e, board)
  }

  /**
   * Second way out: the checked king lists a square that no piece of colour
   * `c` lists, all moves taken on the current board.
   */
  predicate CanFlee(board: Board, c: Color, king: Piece)
  {
    exists s :: s in AvailableMoves(king, board) && !Attacked(board, c, s)
  }

  function Sign(n: int): int
  {
    if n < 0 then -1 else if n == 0 then 0 else 1
  }

  function Abs(n: int): int
  {
    if n < 0 then -n else n
  }

  /** The square `i` diagonal steps from `a` toward `k`. */
  function Step(a: Square, k: Square, i: int): Square
  {
    (a.0 + Sign(k.0 - a.0) * i, a.1 + Sign(k.1 - a.1) * i)
  }

  /**
   * The squares `checkmate` treats as the diagonal between the checking
   * piece on `a` and the king on `k`: steps 1 up to the king's file minus 3,
   * however far apart the two stand.
   */
  function Diagonal(a: Square, k: Square): seq<Square>
  {
    seq(if k.0 > 3 then k.0 - 3 else 0, i => Step(a, k, i + 1))
  }

  /** Third way out, square by square: a defender reaching `s` counts as a block. */
  predicate Interposes(attacker: Piece, king: Piece, s: Square)
  {
    if attacker.kind == Knight then false
    else if attacker.pos.0 == king.pos.0 then s.0 == king.pos.0
    else if attacker.pos.1 == king.pos.1 then s.1 == king.pos.1
    else s in Diagonal(attacker.pos, king.pos)
  }

  /** Some defender lists a square that counts as a block. */
  predicate CanBlock(board: Board, c: Color, attacker: Piece, king: Piece)
  {
    exists e, s :: e in Defenders(board, c) && s in AvailableMoves(e, board) && Interposes(attacker, king, s)
  }

  /** The verdict of `checkmate`: none of the three ways out was found. */
  predicate IsMate(board: Board, c: Color, attacker: Piece, king: Piece)
  {
    !CanCapture(board, c, attacker) && !CanFlee(board, c, king) && !CanBlock(board, c, attacker, king)
  }

  // ---------------------------------------------------------------------------
  // The diagonal against the squares really lying between the two pieces

  /** `s` lies strictly between `a` and `k` on the diagonal from `a` toward `k`. */
  predicate OnPath(a: Square, k: Square, s: Square)
  {
    exists i :: 1 <= i < Abs(k.0 - a.0) && s == Step(a, k, i)
  }

  lemma StepInjective(a: Square, k: Square, i: int, j: int)
    requires a.0 != k.0 && Step(a, k, i) == Step(a, k, j)
    ensures i == j
  {
    if k.0 - a.0 < 0 {
      assert a.0 - i == a.0 - j;
    } else {
      assert a.0 + i == a.0 + j;
    }
  }

  lemma DiagonalMembership(a: Square, k: Square, s: Square)
    ensures s in Diagonal(a, k) <==> exists i :: 1 <= i <= k.0 - 3 && s == Step(a, k, i)
  {
    var d := Diagonal(a, k);
    if s in d {
      var j :| 0 <= j < |d| && d[j] == s;
      assert s == Step(a, k, j + 1);
    }
    if exists i :: 1 <= i <= k.0 - 3 && s == Step(a, k, i) {
      var i :| 1 <= i <= k.0 - 3 && s == Step(a, k, i);
      assert d[i - 1] == s;
    }
  }

  /**
   * Every square strictly between the checking piece and the king is in the
   * diagonal exactly when the distance between them is at most the king's
   * file minus 2 (or they are adjacent): a piece on file a checking a king to
   * its right leaves the square next to the king out.
   */
  lemma DiagonalCoversPath(a: Square, k: Square)
    requires a.0 != k.0
    ensures (forall s :: OnPath(a, k, s) ==> s in Diagonal(a, k)) <==>
      Abs(k.0 - a.0) <= k.0 - 2 || Abs(k.0 - a.0) == 1
  {
    var n := Abs(k.0 - a.0);
    if n <= k.0 - 2 || n == 1 {
      forall s | OnPath(a, k, s)
        ensures s in Diagonal(a, k)
      {
        var i :| 1 <= i < n && s == Step(a, k, i);
        DiagonalMembership(a, k, s);
      }
    } else {
      var s := Step(a, k, n - 1);
      assert OnPath(a, k, s);
      DiagonalMembership(a, k, s);
    }
  }

  /**
   * The diagonal holds nothing but squares strictly between the two pieces
   * exactly when the king's file minus 3 is below their distance: otherwise
   * it runs onto the king's square and, farther still, past it.
   */
  lemma DiagonalStaysOnPath(a: Square, k: Square)
    requires a.0 != k.0
    ensures (forall s :: s in Diagonal(a, k) ==> OnPath(a, k, s)) <==> k.0 - 3 < Abs(k.0 - a.0)
  {
    var n := Abs(k.0 - a.0);
    if k.0 - 3 < n {
      forall s | s in Diagonal(a, k)
        ensures OnPath(a, k, s)
      {
        DiagonalMembership(a, k, s);
        var i :| 1 <= i <= k.0 - 3 && s == Step(a, k, i);
      }
    } else {
      var s := Step(a, k, n);
      DiagonalMembership(a, k, s);
      assert s in Diagonal(a, k);
    }
  }

  /** On a true diagonal the king's own square is in the diagonal exactly when the distance is at most its file minus 3. */
  lemma DiagonalReachesKing(a: Square, k: Square)
    requires a.0 != k.0 && Abs(k.0 - a.0) == Abs(k.1 - a.1)
    ensures k in Diagonal(a, k) <==> Abs(k.0 - a.0) <= k.0 - 3
  {
    var n := Abs(k.0 - a.0);
    assert Step(a, k, n) == k;
    DiagonalMembership(a, k, k);
    if k in Diagonal(a, k) {
      var i :| 1 <= i <= k.0 - 3 && k == Step(a, k, i);
      StepInjective(a, k, i, n);
    }
  }
}
