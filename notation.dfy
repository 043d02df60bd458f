/**
 * The move command: which inputs the prompt accepts, how `move_parse`
 * splits one into a piece letter and a destination square, and which
 * pieces the turn loop then considers able to carry it out.
 */
module Notation {
  import opened Pieces
  import opened Moves

  const Files: string := "abcdefgh"
  const Ranks: string := "12345678"

  /** `pos_dict`: the file letter to its number; a missing key is `None`. */
  function FileNumber(c: char): (n: Option<int>)
    ensures n.Some? <==> c in Files
    ensures n.Some? ==> 1 <= n.value <= 8 && Files[n.value - 1] == c
  {
    if 'a' <= c <= 'h' then Some(c as int - 'a' as int + 1) else None
  }

  /** `int(c)` for a rank digit. */
  function RankNumber(c: char): (n: int)
    requires c in Ranks
    ensures 1 <= n <= 8 && Ranks[n - 1] == c
  {
    c as int - '0' as int
  }

  /** The prompt's first test: the command ends in a file letter and a rank digit. */
  predicate EndsInSquare(cmd: string)
  {
    |cmd| >= 2 && cmd[|cmd| - 2] in Files && cmd[|cmd| - 1] in Ranks
  }

  /** The prompt's second test: the command starts and ends with 'o'. */
  predicate IsCastling(cmd: string)
  {
    |cmd| >= 1 && cmd[0] == 'o' && cmd[|cmd| - 1] == 'o'
  }

  /**
   * Whether the prompt accepts a (lower-cased) command. The first test reads
   * the second-to-last character, so a one-character command is refused
   * before the castling test is reached.
   */
  predicate Accepted(cmd: string)
  {
    |cmd| >= 2 && (EndsInSquare(cmd) || IsCastling(cmd))
  }

  lemma AcceptedCases(cmd: string)
    ensures Accepted(cmd) <==> EndsInSquare(cmd) || (|cmd| >= 2 && IsCastling(cmd))
    ensures !(EndsInSquare(cmd) && IsCastling(cmd))
    ensures !Accepted("o") && Accepted("o-o") && Accepted("e4") && !Accepted("e9")
  {
    assert !('o' in Ranks);
    assert "o-o"[0] == 'o' && "o-o"[2] == 'o';
    assert 'e' in Files && '4' in Ranks && !('9' in Ranks);
  }

  /** `mv_cmd_list` as `move_parse` returns it: the letters before the square, then the square. */
  datatype Command = Command(letters: seq<char>, dest: Square)

  /** The shapes `move_parse` can return. */
  predicate WellParsed(r: Command)
  {
    && |r.letters| >= 1
    && r.letters[0] in "prnbqk"
    && (r.letters[0] == 'p' && |r.letters| >= 2 ==> r.letters[1] !in "rnbqk")
    && 1 <= r.dest.0 <= 8 && 1 <= r.dest.1 <= 8
  }

  /**
   * `move_parse`: a command not led by a piece letter, or of only two
   * characters, gets a leading 'p'; the last two characters become the square.
   */
  function MoveParse(cmd: string): (r: Command)
    requires EndsInSquare(cmd)
    ensures WellParsed(r)
  {
    var body := cmd[..|cmd| - 2];
    var square := (FileNumber(cmd[|cmd| - 2]).value, RankNumber(cmd[|cmd| - 1]));
    if cmd[1] == 'x' && cmd[0] !in "rnbqk" then Command(['p'] + body, square)
    else if cmd[0] !in "rnbqk" then Command(['p'] + body, square)
    else if |cmd| == 2 then Command(['p'] + body, square)
    else Command(body, square)
  }

  /** The command a parse came from: the inserted 'p' dropped, the square written back. */
  function Unparse(r: Command): string
    requires WellParsed(r)
  {
    var body := if r.letters[0] == 'p' then r.letters[1..] else r.letters;
    body + [Files[r.dest.0 - 1], Ranks[r.dest.1 - 1]]
  }

  /** Parsing loses nothing: the command can be rebuilt from its parse. */
  lemma ParseRoundTrip(cmd: string)
    requires EndsInSquare(cmd)
    ensures Unparse(MoveParse(cmd)) == cmd
  {
    var r := MoveParse(cmd);
    var n := |cmd|;
    assert FileNumber(cmd[n - 2]).Some?;
    assert Files[r.dest.0 - 1] == cmd[n - 2];
    assert Ranks[r.dest.1 - 1] == cmd[n - 1];
    assert cmd == cmd[..n - 2] + [cmd[n - 2], cmd[n - 1]];
  }

  /** And every shape a parse can have is the parse of its own rebuilt command. */
  lemma UnparseRoundTrip(r: Command)
    requires WellParsed(r)
    ensures EndsInSquare(Unparse(r)) && MoveParse(Unparse(r)) == r
  {
    var cmd := Unparse(r);
    var n := |cmd|;
    assert cmd[n - 2] == Files[r.dest.0 - 1] && cmd[n - 1] == Ranks[r.dest.1 - 1];
    assert FileNumber(cmd[n - 2]) == Some(r.dest.0);
    assert RankNumber(cmd[n - 1]) == r.dest.1;
    if r.letters[0] == 'p' {
      assert cmd[..n - 2] == r.letters[1..];
      assert ['p'] + r.letters[1..] == r.letters;
    } else {
      assert cmd[..n - 2] == r.letters;
    }
  }

  /** The commands the game's instructions use as examples, and two look-alikes. */
  lemma ParseExamples()
    ensures MoveParse("e4") == Command("p", (5, 4))
    ensures MoveParse("exd5") == Command("pex", (4, 5))
    ensures MoveParse("nf3") == Command("n", (6, 3))
    ensures MoveParse("bxc6") == Command("bx", (3, 6))
    ensures MoveParse("b4") == Command("p", (2, 4))
  {
    assert "e4"[..0] == [];
    assert "exd5"[..2] == "ex";
    assert "nf3"[..1] == "n";
    assert "bxc6"[..2] == "bx";
    assert "b4"[..0] == [];
  }

  // ---------------------------------------------------------------------------
  // Selecting the piece to move

  /** The file filter the turn loop applies to a pawn capture (`pos_dict[mv_cmd_list[1]]`). */
  datatype FileFilter = AnyFile | OnFile(file: int) | UnknownFile

  function CaptureFilter(r: Command): (f: FileFilter)
    requires WellParsed(r)
    ensures f.OnFile? ==> |r.letters| >= 2 && 1 <= f.file <= 8 && Files[f.file - 1] == r.letters[1]
    ensures f.AnyFile? <==> !('x' in r.letters && r.letters[0] == 'p')
    ensures f.OnFile? <==> 'x' in r.letters && r.letters[0] == 'p' && r.letters[1] in Files
    ensures f.UnknownFile? <==> 'x' in r.letters && r.letters[0] == 'p' && r.letters[1] !in Files
  {
    if 'x' in r.letters && r.letters[0] == 'p' then
      match FileNumber(r.letters[1])
      case Some(n) => OnFile(n)
      case None => UnknownFile
    else AnyFile
  }

  /** `piece_to_mv` before the filter: the mover's pieces of the named class that list the square. */
  function Movers(board: Board, color: Color, r: Command): set<Piece>
    requires WellParsed(r)
  {
    set p | p in board.Values && Name(p.kind) == r.letters[0] && p.color == color
      && r.dest in AvailableMoves(p, board)
  }

  /**
   * `piece_to_mv` after the filter. When the letter after the 'p' is no file
   * the lookup fails as soon as there is a piece to filter, so that case
   * never yields a candidate.
   */
  function Candidates(board: Board, color: Color, r: Command): (s: set<Piece>)
    requires WellParsed(r)
    ensures forall p :: p in s <==>
      p in Movers(board, color, r) && !CaptureFilter(r).UnknownFile?
      && (CaptureFilter(r).OnFile? ==> p.pos.0 == CaptureFilter(r).file)
  {
    match CaptureFilter(r)
    case AnyFile => Movers(board, color, r)
    case OnFile(f) => set p | p in Movers(board, color, r) && p.pos.0 == f
    case UnknownFile => {}
  }

  /**
   * A candidate is of the named class and colour, and its destination is on
   * files 1..8 and ranks 1..8 and holds no piece of the mover's colour.
   */
  lemma CandidateTarget(board: Board, color: Color, r: Command, p: Piece)
    requires WellParsed(r) && p in Candidates(board, color, r)
    ensures p in board.Values && p.color == color && Name(p.kind) == r.letters[0]
    ensures 1 <= r.dest.0 <= 8 && 1 <= r.dest.1 <= 8
    ensures r.dest in board ==> board[r.dest].color != color
  {
    ListedSquareIsTarget(p, board, r.dest);
  }

  /**
   * A pawn candidate whose file differs from the square's takes a piece of
   * the other colour one rank ahead; with a capture filter it stands on the
   * named file.
   */
  lemma PawnCandidateCaptures(board: Board, color: Color, r: Command, p: Piece)
    requires WellParsed(r) && p in Candidates(board, color, r) && r.letters[0] == 'p'
    ensures p.kind == Pawn
    ensures p.pos.0 != r.dest.0 ==>
      (r.dest in board && board[r.dest].color != color && r.dest.1 == p.pos.1 + Forward(color))
    ensures CaptureFilter(r).OnFile? ==> p.pos.0 == CaptureFilter(r).file
  {
    NameRoundTrip(p.kind);
    if p.pos.0 != r.dest.0 {
      PawnDiagonalOnlyCaptures(p, board, r.dest);
    }
  }
}
