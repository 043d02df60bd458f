/**
 * `chess.__str__`: the board drawn as text, rank 8 at the top, one glyph and
 * one space per square, file letters above and below, rank numbers on both
 * sides.
 */
module Render {
  import opened Pieces

  const FileHeader: string := "   a b c d e f g h"

  /** `p_fig_map[str(piece)]`: white pieces as outline figurines, black as solid ones. */
  function Glyph(p: Piece): char
  {
    match (p.kind, p.color)
    case (King, White) => '\U{2654}'
    case (Queen, White) => '\U{2655}'
    case (Rook, White) => '\U{2656}'
    case (Bishop, White) => '\U{2657}'
    case (Knight, White) => '\U{2658}'
    case (Pawn, White) => '\U{2659}'
    case (King, Black) => '\U{265A}'
    case (Queen, Black) => '\U{265B}'
    case (Rook, Black) => '\U{265C}'
    case (Bishop, Black) => '\U{265D}'
    case (Knight, Black) => '\U{265E}'
    case (Pawn, Black) => '\U{265F}'
  }

  /** What a square shows: its piece's glyph, or '.' when empty. */
  function Cell(board: Board, s: Square): char
  {
    if s in board then Glyph(board[s]) else '.'
  }

  /** Two pieces drawn alike are of the same class and colour, and no piece is drawn as '.'. */
  lemma GlyphInjective(p: Piece, q: Piece)
    ensures Glyph(p) != '.'
    ensures Glyph(p) == Glyph(q) ==> p.kind == q.kind && p.color == q.color
  {
  }

  /** `str(r)` for a rank 1..8. */
  function Digit(r: int): char
    requires 1 <= r <= 8
  {
    ('0' as int + r) as char
  }

  /** The cells of files 1..n-1 on rank `r`, each followed by a space. */
  function Cells(board: Board, r: int, n: int): string
    decreases n
  {
    if n <= 1 then []
    else Cells(board, r, n - 1) + [Cell(board, (n - 1, r)), ' ']
  }

  /** The line for rank `r`. */
  function RankLine(board: Board, r: int): string
    requires 1 <= r <= 8
  {
    [Digit(r), ' ', ' '] + Cells(board, r, 9) + [' ', Digit(r)]
  }

  /** The lines for ranks 8 down to i+1. */
  function RankLines(board: Board, i: int): seq<string>
    requires 0 <= i <= 8
    decreases 8 - i
  {
    if i == 8 then [] else RankLines(board, i + 1) + [RankLine(board, i + 1)]
  }

  /** `"\n".join(lines)`. */
  function Join(lines: seq<string>): string
  {
    if |lines| == 0 then ""
    else if |lines| == 1 then lines[0]
    else Join(lines[..|lines| - 1]) + "\n" + lines[|lines| - 1]
  }

  /** The string `__str__` returns. */
  function Render(board: Board): string
  {
    Join([FileHeader] + RankLines(board, 0)) + "\n" + FileHeader + "\n"
  }

  /** `__str__`: the two nested loops over ranks 8..1 and files 1..8. */
  method ToText(board: Board) returns (text: string)
    ensures text == Render(board)
  {
    var lines := [FileHeader];
    var i := 8;
    while i > 0
      invariant 0 <= i <= 8
      invariant lines == [FileHeader] + RankLines(board, i)
    {
      var line := RankText(board, i);
      lines := lines + [line];
      i := i - 1;
    }
    var body := JoinLines(lines);
    text := body + "\n" + FileHeader + "\n";
  }

  /** The inner loop: one rank's line. */
  method RankText(board: Board, r: int) returns (line: string)
    requires 1 <= r <= 8
    ensures line == RankLine(board, r)
  {
    line := [Digit(r), ' ', ' '];
    var j := 1;
    while j < 9
      invariant 1 <= j <= 9
      invariant line == [Digit(r), ' ', ' '] + Cells(board, r, j)
    {
      line := line + [Cell(board, (j, r)), ' '];
      j := j + 1;
    }
    line := line + [' ', Digit(r)];
  }

  /** `"\n".join`. */
  method JoinLines(lines: seq<string>) returns (text: string)
    ensures text == Join(lines)
  {
    if |lines| == 0 {
      return "";
    }
    text := lines[0];
    var k := 1;
    while k < |lines|
      invariant 1 <= k <= |lines|
      invariant text == Join(lines[..k])
    {
      assert lines[..k + 1][..k] == lines[..k];
      text := text + "\n" + lines[k];
      k := k + 1;
    }
    assert lines[..k] == lines;
  }

  // ---------------------------------------------------------------------------
  // Where each square is drawn

  lemma {:induction false} CellsShape(board: Board, r: int, n: int)
    requires 1 <= n <= 9
    decreases n
    ensures |Cells(board, r, n)| == 2 * (n - 1)
    ensures forall f :: 1 <= f < n ==>
      Cells(board, r, n)[2 * (f - 1)] == Cell(board, (f, r)) && Cells(board, r, n)[2 * (f - 1) + 1] == ' '
  {
    if n > 1 {
      CellsShape(board, r, n - 1);
      CellsSnoc(board, r, n - 1, Cells(board, r, n - 1), Cells(board, r, n));
    }
  }

  /** Appending the cell of file m and its space to the cells of files 1..m-1. */
  lemma CellsSnoc(board: Board, r: int, m: int, prev: string, text: string)
    requires 1 <= m && |prev| == 2 * (m - 1)
    requires forall f :: 1 <= f < m ==> prev[2 * (f - 1)] == Cell(board, (f, r)) && prev[2 * (f - 1) + 1] == ' '
    requires text == prev + [Cell(board, (m, r)), ' ']
    ensures |text| == 2 * m
    ensures forall f :: 1 <= f < m + 1 ==> text[2 * (f - 1)] == Cell(board, (f, r)) && text[2 * (f - 1) + 1] == ' '
  {
    forall f | 1 <= f < m + 1
      ensures text[2 * (f - 1)] == Cell(board, (f, r)) && text[2 * (f - 1) + 1] == ' '
    {
      if f < m {
        assert text[2 * (f - 1)] == prev[2 * (f - 1)] && text[2 * (f - 1) + 1] == prev[2 * (f - 1) + 1];
      } else {
        assert 2 * (f - 1) == |prev|;
      }
    }
  }

  lemma RankLineShape(board: Board, r: int)
    requires 1 <= r <= 8
    ensures |RankLine(board, r)| == 21
    ensures forall f :: 1 <= f <= 8 ==> RankLine(board, r)[3 + 2 * (f - 1)] == Cell(board, (f, r))
  {
    CellsShape(board, r, 9);
  }

  lemma JoinSnoc(lines: seq<string>, line: string)
    requires |lines| >= 1
    ensures Join(lines + [line]) == Join(lines) + "\n" + line
  {
    assert (lines + [line])[..|lines|] == lines;
  }

  /** The header and the lines for ranks 8 down to i+1, one per line. */
  function Body(board: Board, i: int): string
    requires 0 <= i <= 8
    decreases 8 - i
  {
    if i == 8 then FileHeader else Body(board, i + 1) + "\n" + RankLine(board, i + 1)
  }

  /** `Body` is what the join of the header and the rank lines gives. */
  lemma {:induction false} BodyIsJoin(board: Board, i: int)
    requires 0 <= i <= 8
    decreases 8 - i
    ensures Body(board, i) == Join([FileHeader] + RankLines(board, i))
  {
    if i < 8 {
      BodyIsJoin(board, i + 1);
      var prev := [FileHeader] + RankLines(board, i + 1);
      assert [FileHeader] + RankLines(board, i) == prev + [RankLine(board, i + 1)];
      JoinSnoc(prev, RankLine(board, i + 1));
    } else {
      assert [FileHeader] + RankLines(board, i) == [FileHeader];
    }
  }

  /**
   * `text` is as long as the header and the lines for ranks 8 down to i+1,
   * and shows square (f, r) of those ranks at 22 * (9 - r) + 2 * (f - 1).
   */
  predicate Drawn(board: Board, i: int, text: string)
  {
    && |text| == 18 + 22 * (8 - i)
    && forall r, f :: i < r <= 8 && 1 <= f <= 8 ==> text[22 * (9 - r) + 2 * (f - 1)] == Cell(board, (f, r))
  }

  lemma {:induction false} BodyShape(board: Board, i: int)
    requires 0 <= i <= 8
    decreases 8 - i
    ensures Drawn(board, i, Body(board, i))
  {
    if i < 8 {
      BodyShape(board, i + 1);
      RankLineShape(board, i + 1);
      BodyStepCells(board, i, i + 1, Body(board, i + 1), RankLine(board, i + 1), Body(board, i));
    }
  }

  /** Appending the line of rank i+1 to the drawing of ranks 8 down to i+2. */
  lemma BodyStepCells(board: Board, i: int, rank: int, prev: string, line: string, body: string)
    requires 0 <= i < 8 && rank == i + 1
    requires Drawn(board, i + 1, prev)
    requires |line| == 21
    requires forall f :: 1 <= f <= 8 ==> line[3 + 2 * (f - 1)] == Cell(board, (f, rank))
    requires body == prev + "\n" + line
    ensures Drawn(board, i, body)
  {
    forall r, f | i < r <= 8 && 1 <= f <= 8
      ensures body[22 * (9 - r) + 2 * (f - 1)] == Cell(board, (f, r))
    {
      var k := 22 * (9 - r) + 2 * (f - 1);
      if r == i + 1 {
        assert k == |prev| + 1 + (3 + 2 * (f - 1));
        assert body[k] == line[3 + 2 * (f - 1)];
      } else {
        assert k < |prev|;
        assert body[k] == prev[k];
      }
    }
  }

  /**
   * `text` is 214 characters long and shows square (f, r) of the board at
   * position 22 * (9 - r) + 2 * (f - 1).
   */
  predicate Framed(board: Board, text: string)
  {
    && |text| == 214
    && forall r, f :: 1 <= r <= 8 && 1 <= f <= 8 ==> text[22 * (9 - r) + 2 * (f - 1)] == Cell(board, (f, r))
  }

  /** Where `__str__` draws each square: the drawing is `Framed`. */
  lemma RenderLayout(board: Board)
    ensures Framed(board, Render(board))
  {
    BodyShape(board, 0);
    BodyIsJoin(board, 0);
    FramedLayout(board, Body(board, 0), Render(board));
  }

  lemma FramedLayout(board: Board, body: string, text: string)
    requires Drawn(board, 0, body)
    requires text == body + "\n" + FileHeader + "\n"
    ensures Framed(board, text)
  {
    forall r, f | 1 <= r <= 8 && 1 <= f <= 8
      ensures text[22 * (9 - r) + 2 * (f - 1)] == Cell(board, (f, r))
    {
      var k := 22 * (9 - r) + 2 * (f - 1);
      assert text[k] == body[k];
    }
  }

  /**
   * Two boards drawn alike agree, on every square of files and ranks 1..8,
   * on whether it is occupied and by what class and colour.
   */
  lemma RenderDeterminesBoard(b1: Board, b2: Board)
    requires Render(b1) == Render(b2)
    ensures forall s: Square :: 1 <= s.0 <= 8 && 1 <= s.1 <= 8 ==>
      (s in b1 <==> s in b2)
      && (s in b1 ==> b1[s].kind == b2[s].kind && b1[s].color == b2[s].color)
  {
    RenderLayout(b1);
    RenderLayout(b2);
    SameCells(b1, b2, Render(b1));
  }

  lemma SameCells(b1: Board, b2: Board, text: string)
    requires Framed(b1, text) && Framed(b2, text)
    ensures forall s: Square :: 1 <= s.0 <= 8 && 1 <= s.1 <= 8 ==>
      (s in b1 <==> s in b2)
      && (s in b1 ==> b1[s].kind == b2[s].kind && b1[s].color == b2[s].color)
  {
    forall s: Square | 1 <= s.0 <= 8 && 1 <= s.1 <= 8
      ensures (s in b1 <==> s in b2)
        && (s in b1 ==> b1[s].kind == b2[s].kind && b1[s].color == b2[s].color)
    {
      assert Cell(b1, (s.0, s.1)) == text[22 * (9 - s.1) + 2 * (s.0 - 1)] == Cell(b2, (s.0, s.1));
      if s in b1 {
        GlyphInjective(b1[s], b1[s]);
      }
      if s in b2 {
        GlyphInjective(b2[s], b2[s]);
      }
      if s in b1 && s in b2 {
        GlyphInjective(b1[s], b2[s]);
      }
    }
  }
}
