/**
 * The `chess` class: the board dictionary it owns and updates, and the
 * operations the turn loop performs on it.
 */
module Chess {
  import opened Pieces
  import opened Moves
  import opened Position
  import opened Castling
  import opened Attacks
  import opened Notation

  /** What `check` returns; `KingMissing` is the failed `king[0]` lookup. */
  datatype CheckResult = NoCheck | InCheck(attacker: Piece, king: Piece) | KingMissing

  /** How the castling branch of a turn ends; the last three are the ones that stop the turn. */
  datatype CastleOutcome =
    | NoKing          // `the_king[0]` fails
    | CannotCastle    // "Cannot castle", the player is asked again
    | RookMissing     // `rook_to_move[0]` fails
    | Castled(king: Piece, to: Square, rook: Piece)

  /** How the ordinary-move branch of a turn ends. */
  datatype MoveOutcome =
    | Moved(piece: Piece)
    | NoCandidate      // "Invalid move", the player is asked again
    | UnknownCaptureFile  // `pos_dict[mv_cmd_list[1]]` fails

  /** What the end of a turn reports. */
  datatype TurnEnd = Quiet | GivesCheck(attacker: Piece, king: Piece) | Mate(attacker: Piece, king: Piece) | NoOpposingKing

  lemma UnionUpdate(m: Board, q: Board, s: Square, p: Piece)
    ensures (m + q)[s := p] == m + q[s := p]
  {
  }

  /** The squares `checkmate` builds from the two sign quotients are `Diagonal`. */
  lemma DiagonalBySigns(a: Square, k: Square, deltaFile: int, deltaRank: int, diagonal: seq<Square>)
    requires deltaFile == Sign(k.0 - a.0) && deltaRank == Sign(k.1 - a.1)
    requires diagonal == seq(if k.0 - 3 > 0 then k.0 - 3 else 0,
      i => (a.0 + deltaFile * (i + 1), a.1 + deltaRank * (i + 1)))
    ensures diagonal == Diagonal(a, k)
  {
    var d := Diagonal(a, k);
    assert |diagonal| == |d|;
    forall i | 0 <= i < |d|
      ensures diagonal[i] == d[i]
    {
      assert d[i] == Step(a, k, i + 1);
    }
  }

  class Game {
    var board: Board

    /** Every piece is stored under its own square. */
    predicate Valid()
      reads this
    {
      WellFormed(board)
    }

    /** A new game starts from the standard position. */
    constructor ()
      ensures board == StartPosition() && Valid()
    {
      board := map[];
      new;
      InitializeBoard();
      StartPositionContents();
    }

    /**
     * `initialize_board`: the pawns first, then the back ranks, white (the
     * first player's colour) on ranks 1 and 2. Entries already on other
     * squares stay.
     */
    method InitializeBoard()
      modifies this
      ensures board == old(board) + StartPosition()
    {
      var i := 1;
      while i < 9
        invariant 1 <= i <= 9
        invariant board == old(board) + PawnRows(i)
      {
        UnionUpdate(old(board), PawnRows(i), (i, 2), Piece(Pawn, White, (i, 2)));
        board := board[(i, 2) := Piece(Pawn, White, (i, 2))];
        UnionUpdate(old(board), PawnRows(i)[(i, 2) := Piece(Pawn, White, (i, 2))], (i, 7), Piece(Pawn, Black, (i, 7)));
        board := board[(i, 7) := Piece(Pawn, Black, (i, 7))];
        i := i + 1;
      }
      i := 1;
      while i < 9
        invariant 1 <= i <= 9
        invariant board == old(board) + Setup(i)
      {
        var k := BackRankOrder[i - 1];
        UnionUpdate(old(board), Setup(i), (i, 1), Piece(k, White, (i, 1)));
        board := board[(i, 1) := Piece(k, White, (i, 1))];
        UnionUpdate(old(board), Setup(i)[(i, 1) := Piece(k, White, (i, 1))], (i, 8), Piece(k, Black, (i, 8)));
        board := board[(i, 8) := Piece(k, Black, (i, 8))];
        i := i + 1;
      }
    }

    /**
     * `move_peice`: the mover's entry is deleted and a new piece written at
     * the destination; when castling, the rook's entry is deleted too and a
     * new rook written beside the king.
     */
    method MovePiece(mover: Piece, to: Square, kind: Kind, color: Color, rook: Option<Piece>)
      requires mover.pos in board
      requires rook.Some? ==> rook.value.pos in board && rook.value.pos != mover.pos
      modifies this
      ensures rook.None? ==> board == AfterMove(old(board), mover.pos, to, kind, color)
      ensures rook.Some? ==> board == AfterCastle(old(board), mover.pos, to, kind, color, rook.value.pos)
      ensures old(Valid()) ==> Valid()
    {
      board := board - {mover.pos};
      board := board[to := Piece(kind, color, to)];
      assert board == AfterMove(old(board), mover.pos, to, kind, color);
      assert WellFormed(old(board)) ==> WellFormed(board) by {
        MoveFrame(old(board), mover.pos, to, kind, color);
      }
      if rook.Some? {
        var mid := board;
        var file := if rook.value.pos.0 == 8 then -1 else 1;
        board := board - {rook.value.pos};
        var landing := (to.0 + file, to.1);
        board := board[landing := Piece(Rook, color, landing)];
        assert rook.value.pos in mid;
        assert board == AfterMove(mid, rook.value.pos, landing, Rook, color);
        assert WellFormed(mid) ==> WellFormed(board) by {
          MoveFrame(mid, rook.value.pos, landing, Rook, color);
        }
      }
    }

    /**
     * `check`: whether some piece of colour `c` lists the square of the other
     * side's king. The king looked at is one of the other side's kings
     * (`king[0]`), fetched only once there is a piece of `c` to try.
     */
    method Check(c: Color) returns (r: CheckResult)
      ensures r.KingMissing? <==> OpponentKings(board, c) == {} && Side(board, c) != {}
      ensures r.InCheck? ==>
        r.attacker in Side(board, c) && r.king in OpponentKings(board, c)
        && r.king.pos in AvailableMoves(r.attacker, board)
      ensures r.NoCheck? ==>
        Side(board, c) == {} || exists k :: k in OpponentKings(board, c) && !Attacked(board, c, k.pos)
    {
      var kings := OpponentKings(board, c);
      var my := Side(board, c);
      var king: Option<Piece> := None;
      if kings != {} {
        var k :| k in kings;
        king := Some(k);
      }
      var rest := my;
      while rest != {}
        invariant rest <= my
        invariant king.Some? <==> kings != {}
        invariant king.Some? ==> king.value in kings
        invariant king.Some? ==> forall e :: e in my - rest ==> king.value.pos !in AvailableMoves(e, board)
        invariant king.None? ==> rest == my
        decreases |rest|
      {
        var e :| e in rest;
        if king.None? {
          return KingMissing;
        }
        var avail := ComputeAvailableMoves(e, board);
        if king.value.pos in avail {
          return InCheck(e, king.value);
        }
        rest := rest - {e};
      }
      if my != {} {
        assert !Attacked(board, c, king.value.pos);
      }
      return NoCheck;
    }

    /**
     * The `diagonal` of `checkmate`: found by looking for the king's square
     * among the checking piece's moves and stepping from the checking piece
     * toward it, with the float quotients taken as signs.
     */
    method BaseDiagonal(attacker: Piece, king: Piece) returns (diagonal: seq<Square>)
      requires king.pos in AvailableMoves(attacker, board)
      ensures diagonal == Diagonal(attacker.pos, king.pos)
    {
      var moves := ComputeAvailableMoves(attacker, board);
      diagonal := [];
      var j := 0;
      while j < |moves|
        invariant 0 <= j <= |moves|
        invariant king.pos in moves[..j] ==> diagonal == Diagonal(attacker.pos, king.pos)
      {
        var move := moves[j];
        if move == king.pos {
          var deltaFile := Sign(move.0 - attacker.pos.0);
          var deltaRank := Sign(move.1 - attacker.pos.1);
          diagonal := seq(if move.0 - 3 > 0 then move.0 - 3 else 0,
            i => (attacker.pos.0 + deltaFile * (i + 1), attacker.pos.1 + deltaRank * (i + 1)));
          DiagonalBySigns(attacker.pos, move, deltaFile, deltaRank, diagonal);
        }
        j := j + 1;
      }
      assert moves[..j] == moves;
    }

    /** One of the `for e in op` loops of `checkmate`: does a defender list a square counted as a block? */
    method DefenderBlocks(c: Color, attacker: Piece, king: Piece, diagonal: seq<Square>) returns (found: bool)
      requires attacker.kind != Knight
      requires attacker.pos.0 != king.pos.0 && attacker.pos.1 != king.pos.1 ==>
        diagonal == Diagonal(attacker.pos, king.pos)
      ensures found <==> CanBlock(board, c, attacker, king)
    {
      var op := Defenders(board, c);
      var rest := op;
      while rest != {}
        invariant rest <= op
        invariant forall e, s :: e in op - rest && s in AvailableMoves(e, board) ==> !Interposes(attacker, king, s)
        decreases |rest|
      {
        var e :| e in rest;
        var avail := ComputeAvailableMoves(e, board);
        var hit;
        if attacker.pos.0 == king.pos.0 {
          hit := exists move :: move in avail && move.0 == king.pos.0;
        } else if attacker.pos.1 == king.pos.1 {
          hit := exists move :: move in avail && move.1 == king.pos.1;
        } else {
          hit := exists move :: move in avail && move in diagonal;
        }
        if hit {
          var move :| move in avail && Interposes(attacker, king, move);
          assert e in op && move in AvailableMoves(e, board);
          return true;
        }
        rest := rest - {e};
      }
      return false;
    }

    /** `all_possible_moves`: every square some piece of colour `c` lists. */
    method AllPossibleMoves(c: Color) returns (all: seq<Square>)
      ensures forall s :: s in all <==> Attacked(board, c, s)
    {
      var my := Side(board, c);
      var rest := my;
      all := [];
      while rest != {}
        invariant rest <= my
        invariant forall s :: s in all <==> exists e :: e in my - rest && s in AvailableMoves(e, board)
        decreases |rest|
      {
        var e :| e in rest;
        var avail := ComputeAvailableMoves(e, board);
        all := all + avail;
        rest := rest - {e};
      }
    }

    /**
     * `checkmate`: mate unless a defender can take the checking piece, the
     * king lists a square no piece of colour `c` lists, or a defender can
     * reach a square counted as a block.
     */
    method Checkmate(c: Color, attacker: Piece, king: Piece) returns (mate: bool)
      requires king.pos in AvailableMoves(attacker, board)
      ensures mate <==> IsMate(board, c, attacker, king)
    {
      var captured := DefenderCaptures(c, attacker);
      if captured {
        return false;
      }
      var flees := KingFlees(c, king);
      if flees {
        return false;
      }
      if attacker.kind == Knight {
        return true;
      }
      var diagonal := [];
      if attacker.pos.0 != king.pos.0 && attacker.pos.1 != king.pos.1 {
        diagonal := BaseDiagonal(attacker, king);
      }
      var blocked := DefenderBlocks(c, attacker, king, diagonal);
      return !blocked;
    }

    /** The first loop of `checkmate`: does a defender list the checking piece's square? */
    method DefenderCaptures(c: Color, attacker: Piece) returns (found: bool)
      ensures found <==> CanCapture(board, c, attacker)
    {
      var op := Defenders(board, c);
      var rest := op;
      while rest != {}
        invariant rest <= op
        invariant forall e :: e in op - rest ==> attacker.pos !in AvailableMoves(e, board)
        decreases |rest|
      {
        var e :| e in rest;
        var avail := ComputeAvailableMoves(e, board);
        if attacker.pos in avail {
          return true;
        }
        rest := rest - {e};
      }
      return false;
    }

    /** The king's loop of `checkmate`: does the king list a square no piece of colour `c` lists? */
    method KingFlees(c: Color, king: Piece) returns (flees: bool)
      ensures flees <==> CanFlee(board, c, king)
    {
      var all := AllPossibleMoves(c);
      var kingMoves := ComputeAvailableMoves(king, board);
      var covered := Covered(kingMoves, all);
      if !covered {
        var s :| s in kingMoves && s !in all;
        assert !Attacked(board, c, s);
      }
      return !covered;
    }

    /** The `for m in king_moves` loop: is every square of `moves` also in `all`? */
    static method Covered(moves: seq<Square>, all: seq<Square>) returns (covered: bool)
      ensures covered <==> forall s :: s in moves ==> s in all
    {
      var i := 0;
      while i < |moves|
        invariant 0 <= i <= |moves|
        invariant forall j :: 0 <= j < i ==> moves[j] in all
      {
        if moves[i] !in all {
          return false;
        }
        i := i + 1;
      }
      return true;
    }

    /**
     * The end of a turn of colour `c`: `check`, then `checkmate` on the pair
     * it returns.
     */
    method EndOfTurn(c: Color) returns (t: TurnEnd)
      ensures t.NoOpposingKing? <==> OpponentKings(board, c) == {} && Side(board, c) != {}
      ensures t.Quiet? ==>
        Side(board, c) == {} || exists k :: k in OpponentKings(board, c) && !Attacked(board, c, k.pos)
      ensures t.GivesCheck? || t.Mate? ==>
        t.attacker in Side(board, c) && t.king in OpponentKings(board, c)
        && t.king.pos in AvailableMoves(t.attacker, board)
      ensures t.GivesCheck? ==> !IsMate(board, c, t.attacker, t.king)
      ensures t.Mate? ==> IsMate(board, c, t.attacker, t.king)
    {
      var r := Check(c);
      match r
      case KingMissing =>
        return NoOpposingKing;
      case NoCheck =>
        return Quiet;
      case InCheck(attacker, king) =>
        var mate := Checkmate(c, attacker, king);
        if mate {
          return Mate(attacker, king);
        }
        return GivesCheck(attacker, king);
    }

    /**
     * The castling branch of a turn. `west` is the answer to the question
     * asked when both destinations are open (0 picks the one toward h).
     */
    method Castle(color: Color, west: bool) returns (outcome: CastleOutcome)
      requires Valid()
      modifies this
      ensures Valid()
      ensures outcome.NoKing? <==> Kings(old(board), color) == {}
      ensures !outcome.Castled? ==> board == old(board)
      ensures outcome.CannotCastle? ==>
        exists k :: k in Kings(old(board), color) && CastleDestinations(old(board), color, k.pos) == []
      ensures outcome.RookMissing? ==>
        exists k :: k in Kings(old(board), color) &&
          var dests := CastleDestinations(old(board), color, k.pos);
          && dests != []
          && RookChoices(old(board), color, k.pos, if |dests| == 2 && west then dests[1] else dests[0]) == {}
      ensures outcome.Castled? ==>
        var dests := CastleDestinations(old(board), color, outcome.king.pos);
        && outcome.king in Kings(old(board), color)
        && dests != [] && outcome.to == (if |dests| == 2 && west then dests[1] else dests[0])
        && outcome.rook in RookChoices(old(board), color, outcome.king.pos, outcome.to)
        && outcome.rook.pos != outcome.king.pos
        && board == AfterCastle(old(board), outcome.king.pos, outcome.to, King, color, outcome.rook.pos)
    {
      var kings := Kings(board, color);
      if kings == {} {
        return NoKing;
      }
      var king :| king in kings;
      var dests := CastleDestinations(board, color, king.pos);
      if dests == [] {
        return CannotCastle;
      }
      var to := if |dests| == 2 && west then dests[1] else dests[0];
      var rooks := RookChoices(board, color, king.pos, to);
      if rooks == {} {
        return RookMissing;
      }
      var rook :| rook in rooks;
      assert king.pos in board && rook.pos in board && rook.pos != king.pos by {
        var ks :| ks in board && board[ks] == king;
        var rs :| rs in board && board[rs] == rook;
      }
      MovePiece(king, to, King, color, Some(rook));
      return Castled(king, to, rook);
    }

    /** `piece_to_mv` before the filter, one piece at a time. */
    method PiecesReaching(color: Color, r: Command) returns (found: set<Piece>)
      requires WellParsed(r)
      ensures found == Movers(board, color, r)
    {
      var possible := set p | p in board.Values && Name(p.kind) == r.letters[0] && p.color == color;
      var rest := possible;
      found := {};
      while rest != {}
        invariant rest <= possible
        invariant forall p :: p in found <==> p in possible - rest && r.dest in AvailableMoves(p, board)
        decreases |rest|
      {
        var p :| p in rest;
        var avail := ComputeAvailableMoves(p, board);
        if r.dest in avail {
          found := found + {p};
        }
        rest := rest - {p};
      }
    }

    /**
     * The ordinary-move branch of a turn: parse the command, find the pieces
     * that can carry it out, and move one of them. When several can, the
     * player picks one; which one is not modelled.
     */
    method PlayMove(color: Color, cmd: string) returns (outcome: MoveOutcome)
      requires Valid() && EndsInSquare(cmd)
      modifies this
      ensures Valid()
      ensures var r := MoveParse(cmd);
        && (outcome.UnknownCaptureFile? <==> CaptureFilter(r).UnknownFile? && Movers(old(board), color, r) != {})
        && (outcome.NoCandidate? <==> !outcome.UnknownCaptureFile? && Candidates(old(board), color, r) == {})
        && (outcome.Moved? ==>
              outcome.piece in Candidates(old(board), color, r) && outcome.piece.pos in old(board)
              && board == AfterMove(old(board), outcome.piece.pos, r.dest, outcome.piece.kind, color))
        && (!outcome.Moved? ==> board == old(board))
    {
      var r := MoveParse(cmd);
      var toMove := PiecesReaching(color, r);
      if 'x' in r.letters && r.letters[0] == 'p' && toMove != {} {
        var file := FileNumber(r.letters[1]);
        if file.None? {
          return UnknownCaptureFile;
        }
        toMove := set p | p in toMove && p.pos.0 == file.value;
      }
      assert toMove == Candidates(board, color, r);
      if toMove == {} {
        return NoCandidate;
      }
      var piece :| piece in toMove;
      assert piece.pos in board by {
        var s :| s in board && board[s] == piece;
      }
      MovePiece(piece, r.dest, piece.kind, color, None);
      return Moved(piece);
    }
  }
}
