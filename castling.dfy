/**
 * Castling eligibility as `main` decides it before calling `move_peice`:
 * where the king may go, and which rook then moves.
 */
module Castling {
  import opened Pieces
  import opened Position

  /** The corner squares a castling rook must stand on. */
  const Corners: set<Square> := {(1, 1), (1, 8), (8, 1), (8, 8)}

  /** The squares from which a king may castle, whatever its colour. */
  predicate KingHome(s: Square)
  {
    s == (5, 1) || s == (4, 8)
  }

  /** The kings of `color` (`the_king`). */
  function Kings(board: Board, color: Color): set<Piece>
  {
    set p | p in board.Values && p.kind == King && p.color == color
  }

  /** The rooks of `color` standing on a corner (`possible_rooks`). */
  function CornerRooks(board: Board, color: Color): set<Piece>
  {
    set p | p in board.Values && p.kind == Rook && p.color == color && p.pos in Corners
  }

  /** The square `j` files from `king` on its rank. */
  function Along(king: Square, j: int): Square
  {
    (king.0 + j, king.1)
  }

  /** The squares at the given file offsets from `king`, on its rank, are all empty. */
  predicate PathEmpty(board: Board, king: Square, offsets: seq<int>)
  {
    forall j :: j in offsets ==> Along(king, j) !in board
  }

  /** How many squares toward file h must be empty: two for white, three for black. */
  function EastReach(color: Color): int
  {
    if color == White then 2 else 3
  }

  /** How many squares toward file a must be empty: three for white, two for black. */
  function WestReach(color: Color): int
  {
    if color == White then 3 else 2
  }

  /**
   * The king destinations offered for a king of `color` on `king`: two files
   * toward h first, then two files toward a. Either needs the king on one of
   * the home squares, some corner rook of its colour anywhere, and the
   * squares toward that side empty.
   */
  function CastleDestinations(board: Board, color: Color, king: Square): (r: seq<Square>)
    ensures |r| <= 2
    ensures forall s :: s in r ==> s.1 == king.1 && (s.0 == king.0 + 2 || s.0 == king.0 - 2)
    ensures r != [] ==> KingHome(king) && CornerRooks(board, color) != {}
    ensures (king.0 + 2, king.1) in r <==>
      KingHome(king) && CornerRooks(board, color) != {}
      && forall j :: 1 <= j <= EastReach(color) ==> Along(king, j) !in board
    ensures (king.0 - 2, king.1) in r <==>
      KingHome(king) && CornerRooks(board, color) != {}
      && forall j :: -WestReach(color) <= j <= -1 ==> Along(king, j) !in board
    ensures |r| == 2 ==> r[0] == (king.0 + 2, king.1) && r[1] == (king.0 - 2, king.1)
  {
    if !KingHome(king) || CornerRooks(board, color) == {} then []
    else
      var east := if color == White then [1, 2] else [1, 2, 3];
      var west := if color == White then [-1, -2, -3] else [-1, -2];
      assert PathEmpty(board, king, east) <==> forall j :: 1 <= j <= EastReach(color) ==> Along(king, j) !in board by {
        assert forall j :: j in east <==> 1 <= j <= EastReach(color);
      }
      assert PathEmpty(board, king, west) <==> forall j :: -WestReach(color) <= j <= -1 ==> Along(king, j) !in board by {
        assert forall j :: j in west <==> -WestReach(color) <= j <= -1;
      }
      var toEast := if PathEmpty(board, king, east) then [(king.0 + 2, king.1)] else [];
      var toWest := if PathEmpty(board, king, west) then [(king.0 - 2, king.1)] else [];
      toEast + toWest
  }

  /** The file of the rook that goes with a destination: h for the one toward h, a otherwise. */
  function RookFile(king: Square, dest: Square): int
  {
    if dest == (king.0 + 2, king.1) then 8 else 1
  }

  /** The corner rooks `rook_to_move` draws from for a chosen destination. */
  function RookChoices(board: Board, color: Color, king: Square, dest: Square): (r: set<Piece>)
    ensures forall p :: p in r <==>
      p in board.Values && p.kind == Rook && p.color == color
      && p.pos.0 == RookFile(king, dest) && (p.pos.1 == 1 || p.pos.1 == 8)
  {
    set p | p in CornerRooks(board, color) && p.pos.0 == RookFile(king, dest)
  }

  /**
   * Whatever the rook chosen, it lands between the king's home square and
   * its destination, next to the destination.
   */
  lemma RookLandsBesideKing(board: Board, color: Color, king: Square, dest: Square, rook: Piece)
    requires dest in CastleDestinations(board, color, king)
    requires rook in RookChoices(board, color, king, dest)
    ensures RookLanding(dest, rook.pos) == ((king.0 + dest.0) / 2, king.1)
  {
  }

  /**
   * For an offered destination and any rook that goes with it, the king's
   * square, the rook's square, the destination and the rook's landing square
   * are four different squares.
   */
  lemma CastleSquaresDistinct(board: Board, color: Color, king: Square, dest: Square, rook: Piece)
    requires dest in CastleDestinations(board, color, king)
    requires rook in RookChoices(board, color, king, dest)
    ensures var l := RookLanding(dest, rook.pos);
      && king != rook.pos && dest != king && dest != rook.pos
      && l != king && l != rook.pos && l != dest
  {
  }

  /** Neither side can castle from the starting position; black's king is not even on a home square. */
  lemma NoCastlingFromStart(color: Color, king: Piece)
    requires king in StartPosition().Values && king.kind == King && king.color == color
    ensures CastleDestinations(StartPosition(), color, king.pos) == []
    ensures color == Black ==> !KingHome(king.pos)
  {
    var b := StartPosition();
    assert king.pos == (5, 1) || king.pos == (5, 8) by {
      StartKings();
    }
    if king.pos == (5, 1) {
      assert color == White by {
        StartPositionContents();
        var s :| s in b && b[s] == king;
        assert s == (5, 1);
      }
      WhiteKingBlockedAtStart(color, king.pos);
    }
  }

  lemma WhiteKingBlockedAtStart(color: Color, king: Square)
    requires king == (5, 1)
    ensures CastleDestinations(StartPosition(), color, king) == []
  {
    var b := StartPosition();
    var r := CastleDestinations(b, color, king);
    assert Along(king, 1) in b && Along(king, -1) in b by {
      StartPositionContents();
      assert IsStartSquare((6, 1)) && IsStartSquare((4, 1));
    }
    assert (king.0 + 2, king.1) !in r;
    assert (king.0 - 2, king.1) !in r;
  }
}
