/** Pieces, squares and the board shared by every part of the engine. */
module Pieces {

  /** The source's `Optional` results (a missing key, an empty list). */
  datatype Option<+T> = None | Some(value: T)

  /** A colour; the source spells it 'white' or 'black'. */
  datatype Color = White | Black

  /** The six piece classes, named in the source by 'p', 'r', 'n', 'b', 'q', 'k'. */
  datatype Kind = Pawn | Rook | Knight | Bishop | Queen | King

  /** (file, rank), both 1..8 on the board; moves may compute squares outside it. */
  type Square = (int, int)

  /** A direction vector, scaled by a distance to give a move. */
  type Offset = (int, int)

  /** A piece knows its name, its colour and the square it stands on. */
  datatype Piece = Piece(kind: Kind, color: Color, pos: Square)

  /** The board dictionary: square to the piece standing there; absent means empty. */
  type Board = map<Square, Piece>

  /** The one-letter short name the source stores in `piece_name`. */
  function Name(k: Kind): (c: char)
    ensures c in "prnbqk"
  {
    match k
    case Pawn => 'p'
    case Rook => 'r'
    case Knight => 'n'
    case Bishop => 'b'
    case Queen => 'q'
    case King => 'k'
  }

  /** The inverse of `Name`: the class a short name selects. */
  function KindOf(c: char): (k: Option<Kind>)
    ensures k.Some? <==> c in "prnbqk"
    ensures k.Some? ==> Name(k.value) == c
  {
    if c == 'p' then Some(Pawn)
    else if c == 'r' then Some(Rook)
    else if c == 'n' then Some(Knight)
    else if c == 'b' then Some(Bishop)
    else if c == 'q' then Some(Queen)
    else if c == 'k' then Some(King)
    else None
  }

  lemma NameRoundTrip(k: Kind)
    ensures KindOf(Name(k)) == Some(k)
  {
  }

  /** Every piece is stored under the square it believes it stands on. */
  predicate WellFormed(board: Board)
  {
    forall s :: s in board ==> board[s].pos == s
  }
}
