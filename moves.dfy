/**
 * Move generation: which squares a piece lists as reachable on the current
 * board (`piece.valid_move`, `piece.clear_path` and each class's
 * `available_moves`). The lists are pseudo-legal: they never ask whether the
 * mover's own king would be left in check.
 */
module Moves {
  import opened Pieces

  /** The square `x` steps from `from` along `d`. */
  function Target(from: Square, d: Offset, x: int): Square
  {
    (from.0 + d.0 * x, from.1 + d.1 * x)
  }

  /** No piece stands strictly between `from` and the square `x` steps along `d`. */
  function ClearPath(board: Board, from: Square, d: Offset, x: int): (r: bool)
    decreases x
    ensures r <==> forall i :: 1 <= i < x ==> Target(from, d, i) !in board
  {
    if x <= 1 then true
    else ClearPath(board, from, d, x - 1) && Target(from, d, x - 1) !in board
  }

  predicate Slider(k: Kind)
  {
    k == Rook || k == Bishop || k == Queen
  }

  predicate Leaper(k: Kind)
  {
    k == Knight || k == King
  }

  /** The target holds no piece of the mover's own colour. */
  predicate NotOwn(board: Board, p: Piece, t: Square)
  {
    t in board ==> board[t].color != p.color
  }

  /**
   * Whether `d` scaled by `x` from the piece's square lands on a square the
   * piece may go to. The bounds test checks the file against 8 twice and the
   * rank against 8 never, so targets above rank 8 pass it.
   */
  function ValidMove(p: Piece, board: Board, d: Offset, x: int): (r: bool)
    ensures r ==> 1 <= Target(p.pos, d, x).0 <= 8 && 1 <= Target(p.pos, d, x).1
    ensures r ==> NotOwn(board, p, Target(p.pos, d, x))
  {
    var t := Target(p.pos, d, x);
    if t.0 < 1 || t.0 > 8 || t.1 < 1 || t.0 > 8 then false
    else if t in board then
      if board[t].color == p.color then false
      else if p.kind == Pawn && t.0 != p.pos.0 then true
      else if Slider(p.kind) && ClearPath(board, p.pos, d, x) then true
      else if Leaper(p.kind) then true
      else false
    else
      if p.kind == Pawn && t.0 == p.pos.0 && ClearPath(board, p.pos, d, x) then true
      else if Slider(p.kind) && ClearPath(board, p.pos, d, x) then true
      else if Leaper(p.kind) then true
      else false
  }

  /** What `ValidMove` accepts, class by class. */
  lemma ValidMoveMeaning(p: Piece, board: Board, d: Offset, x: int)
    ensures Leaper(p.kind) ==>
      (ValidMove(p, board, d, x) <==>
        1 <= Target(p.pos, d, x).0 <= 8 && 1 <= Target(p.pos, d, x).1
        && NotOwn(board, p, Target(p.pos, d, x)))
    ensures Slider(p.kind) ==>
      (ValidMove(p, board, d, x) <==>
        1 <= Target(p.pos, d, x).0 <= 8 && 1 <= Target(p.pos, d, x).1
        && NotOwn(board, p, Target(p.pos, d, x))
        && forall i :: 1 <= i < x ==> Target(p.pos, d, i) !in board)
    ensures p.kind == Pawn && Target(p.pos, d, x) in board ==>
      (ValidMove(p, board, d, x) <==>
        1 <= Target(p.pos, d, x).0 <= 8 && 1 <= Target(p.pos, d, x).1
        && board[Target(p.pos, d, x)].color != p.color
        && Target(p.pos, d, x).0 != p.pos.0)
    ensures p.kind == Pawn && Target(p.pos, d, x) !in board ==>
      (ValidMove(p, board, d, x) <==>
        1 <= Target(p.pos, d, x).0 <= 8 && 1 <= Target(p.pos, d, x).1
        && Target(p.pos, d, x).0 == p.pos.0
        && forall i :: 1 <= i < x ==> Target(p.pos, d, i) !in board)
  {
  }

  /** The unit vectors each class tries, in the source's order. */
  function Directions(p: Piece): seq<Offset>
  {
    match p.kind
    case Pawn =>
      if p.color == Black then [(0, -1), (-1, -1), (1, -1)] else [(0, 1), (-1, 1), (1, 1)]
    case Rook => [(0, 1), (0, -1), (1, 0), (-1, 0)]
    case Knight => [(-1, 2), (1, 2), (-2, 1), (2, 1), (-1, -2), (1, -2), (-2, -1), (2, -1)]
    case Bishop => [(1, 1), (-1, 1), (1, -1), (-1, -1)]
    case Queen => [(0, 1), (0, -1), (-1, 0), (1, 0), (1, 1), (-1, 1), (1, -1), (-1, -1)]
    case King => [(0, 1), (0, -1), (-1, 0), (1, 0), (1, 1), (-1, 1), (1, -1), (-1, -1)]
  }

  /** The distances tried along each direction (`piece.n` for the sliders). */
  function Distances(p: Piece): seq<int>
  {
    match p.kind
    case Pawn => if p.pos.1 == 2 || p.pos.1 == 7 then [1, 2] else [1]
    case Knight => [1]
    case King => [1]
    case _ => [1, 2, 3, 4, 5, 6, 7]
  }

  /** The straight pawn vectors. */
  predicate Straight(d: Offset)
  {
    d == (0, 1) || d == (0, -1)
  }

  /**
   * What one (direction, distance) pair appends. A pawn whose straight move
   * at `x` fails, or whose vector is diagonal, appends the distance-1 square
   * when that one is valid, once per distance tried.
   */
  function Attempt(p: Piece, board: Board, d: Offset, x: int): seq<Square>
  {
    if p.kind == Pawn then
      if Straight(d) && ValidMove(p, board, d, x) then [Target(p.pos, d, x)]
      else if ValidMove(p, board, d, 1) then [Target(p.pos, d, 1)]
      else []
    else if ValidMove(p, board, d, x) then [Target(p.pos, d, x)]
    else []
  }

  /** All squares appended for direction `d` over the distances `xs`, in order. */
  function Ray(p: Piece, board: Board, d: Offset, xs: seq<int>): seq<Square>
    decreases |xs|
  {
    if xs == [] then []
    else Ray(p, board, d, xs[..|xs| - 1]) + Attempt(p, board, d, xs[|xs| - 1])
  }

  /** All squares appended for the directions `ds`, in order. */
  function Sweep(p: Piece, board: Board, ds: seq<Offset>, xs: seq<int>): seq<Square>
    decreases |ds|
  {
    if ds == [] then []
    else Sweep(p, board, ds[..|ds| - 1], xs) + Ray(p, board, ds[|ds| - 1], xs)
  }

  /** One more distance appends that distance's attempt. */
  lemma RayStep(p: Piece, board: Board, d: Offset, xs: seq<int>, k: nat)
    requires k < |xs|
    ensures Ray(p, board, d, xs[..k + 1]) == Ray(p, board, d, xs[..k]) + Attempt(p, board, d, xs[k])
  {
    assert xs[..k + 1][..k] == xs[..k];
  }

  /** One more direction appends that direction's ray. */
  lemma SweepStep(p: Piece, board: Board, ds: seq<Offset>, xs: seq<int>, k: nat)
    requires k < |ds|
    ensures Sweep(p, board, ds[..k + 1], xs) == Sweep(p, board, ds[..k], xs) + Ray(p, board, ds[k], xs)
  {
    assert ds[..k + 1][..k] == ds[..k];
  }

  /** The list `available_moves` returns, duplicates included. */
  function AvailableMoves(p: Piece, board: Board): seq<Square>
  {
    Sweep(p, board, Directions(p), Distances(p))
  }

  /** `available_moves`: the outer loop over the class's directions. */
  method ComputeAvailableMoves(p: Piece, board: Board) returns (avail: seq<Square>)
    ensures avail == AvailableMoves(p, board)
  {
    var dirs := Directions(p);
    var xs := Distances(p);
    avail := [];
    var j := 0;
    while j < |dirs|
      invariant 0 <= j <= |dirs|
      invariant avail == Sweep(p, board, dirs[..j], xs)
    {
      var moves := ComputeRay(p, board, dirs[j], xs);
      avail := avail + moves;
      assert dirs[..j + 1][..j] == dirs[..j];
      j := j + 1;
    }
    assert dirs[..j] == dirs;
  }

  /** The inner loop of `available_moves`: one direction over the distances `xs`. */
  method ComputeRay(p: Piece, board: Board, d: Offset, xs: seq<int>) returns (avail: seq<Square>)
    ensures avail == Ray(p, board, d, xs)
  {
    avail := [];
    var i := 0;
    while i < |xs|
      invariant 0 <= i <= |xs|
      invariant avail == Ray(p, board, d, xs[..i])
    {
      var x := xs[i];
      if p.kind == Pawn {
        if Straight(d) && ValidMove(p, board, d, x) {
          avail := avail + [Target(p.pos, d, x)];
        } else if ValidMove(p, board, d, 1) {
          avail := avail + [Target(p.pos, d, 1)];
        }
      } else if ValidMove(p, board, d, x) {
        avail := avail + [Target(p.pos, d, x)];
      }
      assert xs[..i + 1][..i] == xs[..i];
      i := i + 1;
    }
    assert xs[..i] == xs;
  }

  // ---------------------------------------------------------------------------
  // Membership

  lemma {:induction false} RayMembership(p: Piece, board: Board, d: Offset, xs: seq<int>, s: Square)
    decreases |xs|
    ensures s in Ray(p, board, d, xs) <==> exists x :: x in xs && s in Attempt(p, board, d, x)
  {
    if xs != [] {
      var n := |xs| - 1;
      var front, last := xs[..n], xs[n];
      RayMembership(p, board, d, front, s);
      assert xs == front + [last];
      assert forall x :: x in xs <==> x in front || x == last;
    }
  }

  /** The lists `f(d)` of the directions `ds`, one after the other. */
  function Chain(f: Offset -> seq<Square>, ds: seq<Offset>): seq<Square>
    decreases |ds|
  {
    if ds == [] then [] else Chain(f, ds[..|ds| - 1]) + f(ds[|ds| - 1])
  }

  lemma {:induction false} ChainMembership(f: Offset -> seq<Square>, ds: seq<Offset>, s: Square)
    decreases |ds|
    ensures s in Chain(f, ds) <==> exists d :: d in ds && s in f(d)
  {
    if ds != [] {
      var n := |ds| - 1;
      var front, last := ds[..n], ds[n];
      ChainMembership(f, front, s);
      assert ds == front + [last];
      assert forall d :: d in ds <==> d in front || d == last;
      if s in f(last) {
        assert last in ds;
      }
    }
  }

  lemma {:induction false} SweepIsChain(p: Piece, board: Board, ds: seq<Offset>, xs: seq<int>)
    decreases |ds|
    ensures Sweep(p, board, ds, xs) == Chain(d => Ray(p, board, d, xs), ds)
  {
    if ds != [] {
      SweepIsChain(p, board, ds[..|ds| - 1], xs);
    }
  }

  lemma SweepMembership(p: Piece, board: Board, ds: seq<Offset>, xs: seq<int>, s: Square)
    ensures s in Sweep(p, board, ds, xs) <==> exists d :: d in ds && s in Ray(p, board, d, xs)
  {
    SweepIsChain(p, board, ds, xs);
    ChainMembership(d => Ray(p, board, d, xs), ds, s);
  }

  /** A square is listed exactly when some (direction, distance) pair appends it. */
  lemma MovesMembership(p: Piece, board: Board, s: Square)
    ensures s in AvailableMoves(p, board) <==>
      exists d, x :: d in Directions(p) && x in Distances(p) && s in Attempt(p, board, d, x)
  {
    var ds, xs := Directions(p), Distances(p);
    SweepMembership(p, board, ds, xs, s);
    forall d | d in ds
      ensures s in Ray(p, board, d, xs) <==> exists x :: x in xs && s in Attempt(p, board, d, x)
    {
      RayMembership(p, board, d, xs, s);
    }
  }

  /** Every listed square is `d` scaled by some tried distance with `ValidMove` true. */
  lemma ListedWitness(p: Piece, board: Board, s: Square) returns (d: Offset, x: int)
    requires s in AvailableMoves(p, board)
    ensures d in Directions(p)
    ensures x in Distances(p) || x == 1
    ensures s == Target(p.pos, d, x) && ValidMove(p, board, d, x)
    ensures p.kind != Pawn ==> x in Distances(p)
    ensures p.kind == Pawn && !Straight(d) ==> x == 1
  {
    MovesMembership(p, board, s);
    var xi;
    d, xi :| d in Directions(p) && xi in Distances(p) && s in Attempt(p, board, d, xi);
    if p.kind == Pawn && !(Straight(d) && ValidMove(p, board, d, xi)) {
      x := 1;
    } else {
      x := xi;
    }
  }

  // ---------------------------------------------------------------------------
  // What every piece's list satisfies

  /**
   * A listed square has a file in 1..8 and a rank of at least 1, and never
   * holds a piece of the mover's colour. Nothing bounds the rank from above.
   */
  lemma ListedSquareIsTarget(p: Piece, board: Board, s: Square)
    requires s in AvailableMoves(p, board)
    ensures 1 <= s.0 <= 8 && 1 <= s.1
    ensures s in board ==> board[s].color != p.color
  {
    var d, x := ListedWitness(p, board, s);
  }

  /** A rook on rank 8 of an open file lists ranks 9 to 15 of that file. */
  lemma TopRankRookListsBeyondBoard(p: Piece, board: Board)
    requires p.kind == Rook && 1 <= p.pos.0 <= 8 && p.pos.1 == 8
    requires forall r :: 9 <= r <= 15 ==> (p.pos.0, r) !in board
    ensures forall r :: 9 <= r <= 15 ==> (p.pos.0, r) in AvailableMoves(p, board)
  {
    forall r | 9 <= r <= 15
      ensures (p.pos.0, r) in AvailableMoves(p, board)
    {
      var x := r - 8;
      assert Directions(p)[0] == (0, 1) && Distances(p)[x - 1] == x;
      assert (p.pos.0, r) in Attempt(p, board, (0, 1), x);
      assert Target(p.pos, (0, 1), x) == (p.pos.0, r);
      assert ValidMove(p, board, (0, 1), x);
      MovesMembership(p, board, (p.pos.0, r));
    }
  }

  // ---------------------------------------------------------------------------
  // Knight and king: the fixed offsets, no path test

  /**
   * A knight or king lists exactly the squares one of its eight offsets away
   * that pass the bounds test and hold no piece of its colour.
   */
  lemma LeaperMoves(p: Piece, board: Board, s: Square)
    requires Leaper(p.kind)
    ensures s in AvailableMoves(p, board) <==>
      (exists d :: d in Directions(p) && s == Target(p.pos, d, 1))
      && 1 <= s.0 <= 8 && 1 <= s.1 && NotOwn(board, p, s)
  {
    if s in AvailableMoves(p, board) {
      var d, x := ListedWitness(p, board, s);
    }
    if (exists d :: d in Directions(p) && s == Target(p.pos, d, 1)) && 1 <= s.0 <= 8 && 1 <= s.1 && NotOwn(board, p, s) {
      var d :| d in Directions(p) && s == Target(p.pos, d, 1);
      ValidMoveMeaning(p, board, d, 1);
      assert Distances(p)[0] == 1 && s in Attempt(p, board, d, 1);
      MovesMembership(p, board, s);
    }
  }

  /** A knight in the corner (1,1) can list only (2,3) and (3,2). */
  lemma CornerKnightMoves(p: Piece, board: Board, s: Square)
    requires p.kind == Knight && p.pos == (1, 1)
    ensures s in AvailableMoves(p, board) <==> (s == (2, 3) || s == (3, 2)) && NotOwn(board, p, s)
  {
    LeaperMoves(p, board, s);
    if s == (2, 3) {
      assert s == Target(p.pos, Directions(p)[1], 1);
    } else if s == (3, 2) {
      assert s == Target(p.pos, Directions(p)[3], 1);
    }
  }

  // ---------------------------------------------------------------------------
  // Rook, bishop and queen: rays of length up to 7 that stop at the first piece

  /**
   * A slider lists exactly the squares at distance 1..7 along one of its
   * directions that pass the bounds test, hold no piece of its colour and
   * have nothing standing before them on the way.
   */
  lemma SliderMoves(p: Piece, board: Board, s: Square)
    requires Slider(p.kind)
    ensures s in AvailableMoves(p, board) <==>
      exists d, x :: d in Directions(p) && 1 <= x <= 7 && s == Target(p.pos, d, x)
        && 1 <= s.0 <= 8 && 1 <= s.1 && NotOwn(board, p, s) && ClearPath(board, p.pos, d, x)
  {
    if s in AvailableMoves(p, board) {
      var d, x := ListedWitness(p, board, s);
      ValidMoveMeaning(p, board, d, x);
      assert 1 <= x <= 7 && s == Target(p.pos, d, x);
    }
    if exists d, x :: d in Directions(p) && 1 <= x <= 7 && s == Target(p.pos, d, x)
        && 1 <= s.0 <= 8 && 1 <= s.1 && NotOwn(board, p, s) && ClearPath(board, p.pos, d, x) {
      var d, x :| d in Directions(p) && 1 <= x <= 7 && s == Target(p.pos, d, x)
        && 1 <= s.0 <= 8 && 1 <= s.1 && NotOwn(board, p, s) && ClearPath(board, p.pos, d, x);
      ValidMoveMeaning(p, board, d, x);
      assert Distances(p)[x - 1] == x && s in Attempt(p, board, d, x);
      MovesMembership(p, board, s);
    }
  }

  /** The eight unit directions; every slider direction is one of them. */
  predicate UnitDirection(d: Offset)
  {
    -1 <= d.0 <= 1 && -1 <= d.1 <= 1 && d != (0, 0)
  }

  /** Two unit rays from one square meet only at the same distance along the same direction. */
  lemma RaysMeetOnlyOnSameRay(from: Square, d: Offset, x: int, e: Offset, y: int)
    requires UnitDirection(d) && UnitDirection(e) && 1 <= x && 1 <= y
    requires Target(from, d, x) == Target(from, e, y)
    ensures d == e && x == y
  {
    assert d.0 * x == e.0 * y && d.1 * x == e.1 * y;
    if d.0 == 0 {
      assert e.0 == 0;
      assert d.1 != 0 && e.1 != 0;
    } else if d.0 == 1 {
      assert e.0 == 1 && x == y;
    } else {
      assert e.0 == -1 && x == y;
    }
  }

  /**
   * Once a piece stands at distance j along a slider's direction, no square
   * farther along that direction is listed, whatever its colour.
   */
  lemma SliderStopsAtFirstPiece(p: Piece, board: Board, d: Offset, j: int, x: int)
    requires Slider(p.kind) && d in Directions(p)
    requires 1 <= j < x && Target(p.pos, d, j) in board
    ensures Target(p.pos, d, x) !in AvailableMoves(p, board)
  {
    var s := Target(p.pos, d, x);
    if s in AvailableMoves(p, board) {
      var e, y := ListedWitness(p, board, s);
      BlockedBeyond(p, board, d, j, x, e, y);
      assert false;
    }
  }

  lemma BlockedBeyond(p: Piece, board: Board, d: Offset, j: int, x: int, e: Offset, y: int)
    requires Slider(p.kind) && d in Directions(p) && e in Directions(p)
    requires 1 <= j < x && 1 <= y && Target(p.pos, d, j) in board
    requires Target(p.pos, e, y) == Target(p.pos, d, x)
    ensures !ValidMove(p, board, e, y)
  {
    assert UnitDirection(d) && UnitDirection(e);
    RaysMeetOnlyOnSameRay(p.pos, d, x, e, y);
    ValidMoveMeaning(p, board, d, x);
  }

  // ---------------------------------------------------------------------------
  // Pawns

  /** The rank step of a pawn: up for white, down for black. */
  function Forward(c: Color): int
  {
    if c == Black then -1 else 1
  }

  /**
   * A pawn lists a square on its own file only when that square is empty and
   * is either one step forward, or two steps forward from rank 2 or 7 (of
   * either colour) over an empty square.
   */
  lemma PawnStraightOntoEmpty(p: Piece, board: Board, s: Square)
    requires p.kind == Pawn && s in AvailableMoves(p, board) && s.0 == p.pos.0
    ensures s !in board
    ensures s == (p.pos.0, p.pos.1 + Forward(p.color))
      || ((p.pos.1 == 2 || p.pos.1 == 7)
          && s == (p.pos.0, p.pos.1 + 2 * Forward(p.color))
          && (p.pos.0, p.pos.1 + Forward(p.color)) !in board)
  {
    var d, x := ListedWitness(p, board, s);
    ValidMoveMeaning(p, board, d, x);
    assert d.0 == 0;
    assert Straight(d);
    if x == 2 {
      assert Target(p.pos, d, 1) !in board;
    }
  }

  /**
   * A pawn lists a square off its own file only when it is one of the two
   * forward diagonal neighbours and holds a piece of the other colour.
   */
  lemma PawnDiagonalOnlyCaptures(p: Piece, board: Board, s: Square)
    requires p.kind == Pawn && s in AvailableMoves(p, board) && s.0 != p.pos.0
    ensures s in board && board[s].color != p.color
    ensures s.1 == p.pos.1 + Forward(p.color) && (s.0 == p.pos.0 - 1 || s.0 == p.pos.0 + 1)
  {
    var d, x := ListedWitness(p, board, s);
    ValidMoveMeaning(p, board, d, x);
  }

  /** A pawn lists an enemy piece one rank ahead on either neighbouring file, when that square passes the bounds test. */
  lemma PawnCaptures(p: Piece, board: Board, side: int)
    requires p.kind == Pawn && (side == -1 || side == 1)
    requires var t := (p.pos.0 + side, p.pos.1 + Forward(p.color));
      1 <= t.0 <= 8 && 1 <= t.1 && t in board && board[t].color != p.color
    ensures (p.pos.0 + side, p.pos.1 + Forward(p.color)) in AvailableMoves(p, board)
  {
    var t := (p.pos.0 + side, p.pos.1 + Forward(p.color));
    var d := if side == -1 then Directions(p)[1] else Directions(p)[2];
    assert d in Directions(p) && !Straight(d) && Target(p.pos, d, 1) == t;
    ValidMoveMeaning(p, board, d, 1);
    assert t in Attempt(p, board, d, Distances(p)[0]);
    MovesMembership(p, board, t);
  }

  /** Every square a pawn lists is one or two ranks ahead of it, never on its own rank or behind. */
  lemma PawnAdvances(p: Piece, board: Board, s: Square)
    requires p.kind == Pawn && s in AvailableMoves(p, board)
    ensures s.1 == p.pos.1 + Forward(p.color) || s.1 == p.pos.1 + 2 * Forward(p.color)
  {
    var d, x := ListedWitness(p, board, s);
  }

  /** The single step is listed exactly when it passes the bounds test and is empty. */
  lemma PawnSingleStep(p: Piece, board: Board)
    requires p.kind == Pawn
    ensures var t := (p.pos.0, p.pos.1 + Forward(p.color));
      t in AvailableMoves(p, board) <==> 1 <= t.0 <= 8 && 1 <= t.1 && t !in board
  {
    var t := (p.pos.0, p.pos.1 + Forward(p.color));
    if t in AvailableMoves(p, board) {
      ListedSquareIsTarget(p, board, t);
      PawnStraightOntoEmpty(p, board, t);
    }
    if 1 <= t.0 <= 8 && 1 <= t.1 && t !in board {
      var d := Directions(p)[0];
      assert t == Target(p.pos, d, 1);
      ValidMoveMeaning(p, board, d, 1);
      assert t in Attempt(p, board, d, Distances(p)[0]);
      MovesMembership(p, board, t);
    }
  }

  /**
   * The double step is tried from rank 2 and from rank 7 whatever the pawn's
   * colour: a white pawn on rank 7 lists rank 9 when ranks 8 and 9 are empty.
   */
  lemma PawnDoubleStep(p: Piece, board: Board)
    requires p.kind == Pawn && (p.pos.1 == 2 || p.pos.1 == 7) && 1 <= p.pos.0 <= 8
    requires (p.pos.0, p.pos.1 + Forward(p.color)) !in board
    requires (p.pos.0, p.pos.1 + 2 * Forward(p.color)) !in board
    requires 1 <= p.pos.1 + 2 * Forward(p.color)
    ensures (p.pos.0, p.pos.1 + 2 * Forward(p.color)) in AvailableMoves(p, board)
  {
    var t := (p.pos.0, p.pos.1 + 2 * Forward(p.color));
    var d := Directions(p)[0];
    assert t == Target(p.pos, d, 2);
    assert Target(p.pos, d, 1) !in board;
    ValidMoveMeaning(p, board, d, 2);
    assert t in Attempt(p, board, d, Distances(p)[1]);
    MovesMembership(p, board, t);
  }
}
