# A verified model of the Chess.py rules engine

Chess.py is a two-player console chess game. The board is a dictionary from
`(file, rank)` tuples (files and ranks 1..8, white on ranks 1 and 2) to
piece objects. Each piece knows its one-letter name, its colour and its
square. This project models the engine behind the prompt:

- **Move lists.** `valid_move`, `clear_path` and each class's
  `available_moves` return, duplicates included, the squares a piece may
  reach. They are pseudo-legal: the engine never asks whether the mover's
  own king would be left in check.
- **Board changes.** `initialize_board` builds the starting position.
  `move_peice` changes the board for a plain move and for castling.
- **Castling eligibility**, which the turn loop decides before it calls
  `move_peice`.
- **Command handling.** `move_parse` parses a move command. The turn loop
  then picks the piece that carries it out.
- **Check and mate.** `check` and the `checkmate` heuristic run after every
  move.
- **Drawing.** `__str__` draws the board as text.

The model keeps the program's behaviour as written, including the places
where it departs from the rules of chess:

- **Rank bound.** The bounds test in `valid_move` compares the file with 8
  twice and never compares the rank with 8. Squares above rank 8 therefore
  pass. A rook on d4 of an empty board lists 17 squares, and a rook on rank
  8 lists ranks 9 to 15 (`MoveExamples.CentreRookOnEmptyBoard`,
  `Moves.TopRankRookListsBeyondBoard`). In the starting position white's
  pieces list what chess allows (two squares for each pawn and knight,
  nothing for the rest, `OpeningMoves.StartPositionMoves`), and so do
  black's pawns. Every black back-rank piece, however, lists a square above
  rank 8, and the b8 knight lists five squares
  (`OpeningMoves.BlackBackRankLeavesBoard`, `OpeningMoves.BlackKnightOpening`).
- **Pawn double step.** It is tried from rank 2 and from rank 7 whatever the
  pawn's colour.
- **Pawn captures listed twice.** A diagonal capture by a pawn on rank 2 or
  rank 7 is listed once per distance tried.
- **Castling squares.** Castling checks only where the king stands, that
  some corner rook exists and that the squares toward the chosen side are
  empty. The king's home squares are e1 and d8, and the black paths are
  mirrored.
- **Mate diagonal.** For a diagonal check, `checkmate` blocks on
  `range(1, king_file - 2)` steps from the checking piece, whatever the
  distance between the two pieces. Depending on the files involved, that
  range misses the square next to the king or runs onto and past the king
  (`Attacks.DiagonalCoversPath`, `Attacks.DiagonalStaysOnPath`).

Layout, one module per file:

| module | file |
|---|---|
| `Pieces` | pieces.dfy |
| `Moves` | moves.dfy |
| `MoveExamples` | move_examples.dfy |
| `OpeningMoves` | opening_moves.dfy |
| `Position` | position.dfy |
| `Castling` | castling.dfy |
| `Attacks` | attacks.dfy |
| `AttackExamples` | attack_examples.dfy |
| `Notation` | notation.dfy |
| `Chess` (class `Game`, which owns the board) | chess.dfy |
| `Render` | render.dfy |

Pure computations are functions with lemmas. The operations that work by
looping are methods whose loops carry invariants, proved equal to those
functions:

- each `available_moves` loop nest;
- the two board-filling loops;
- the loops over pieces in `check` and `checkmate`;
- `__str__`.

The board dictionary is the `board` field of `Chess.Game`, which the
methods update.

## Model

| member | source | states |
|---|---|---|
| Pieces.Name | Chess.py:175 | the short name of each class is one of "prnbqk" |
| Pieces.KindOf | Chess.py:334 | a letter selects a class exactly when it is one of "prnbqk", and that class's name is the letter |
| Pieces.NameRoundTrip | Chess.py:334 | looking up the class of a class's own name gives that class back |
| Moves.ClearPath | Chess.py:502-511 | true exactly when none of the squares 1..x-1 steps along the vector is occupied |
| Moves.ValidMove | Chess.py:469-500 | an accepted target has file 1..8 and rank at least 1 and holds no piece of the mover's colour |
| Moves.ValidMoveMeaning | Chess.py:477-500 | what is accepted, class by class: any non-own target passing the bounds test (file 1..8, rank at least 1) for knight and king; for rook, bishop and queen, additionally a clear path; for a pawn, an enemy piece only off its own file, an empty square only on its own file with a clear path |
| Moves.ComputeAvailableMoves | Chess.py:518-534 | the loops over unit vectors return exactly the list the specification function describes, duplicates and order included (all six classes; also 541-550, 557-566, 573-582, 589-599, 606-615) |
| Moves.ComputeRay | Chess.py:528-533 | the inner loop over distances appends, per distance, the pawn's fallback to one step or the scaled vector when valid |
| Moves.RayMembership | Chess.py:546-549 | a square is in one direction's list exactly when some distance's attempt appends it |
| Moves.ChainMembership | Chess.py:546-550 | a square is in the lists of several directions laid end to end exactly when one of those directions' lists has it |
| Moves.SweepIsChain | Chess.py:546-550 | the outer loop's list is the directions' lists laid end to end, in the class's order |
| Moves.SweepMembership | Chess.py:546-550 | a square is in the list exactly when some direction's list has it |
| Moves.MovesMembership | Chess.py:518-615 | a square is listed exactly when some (direction, distance) pair of the class's tables appends it |
| Moves.ListedWitness | Chess.py:518-615 | every listed square is a tried vector scaled by a tried distance (or by 1 for a pawn's fallback) that `valid_move` accepts |
| Moves.ListedSquareIsTarget | Chess.py:477-484 | every listed square has file 1..8 and rank at least 1 and never holds a piece of the mover's colour |
| Moves.TopRankRookListsBeyondBoard | Chess.py:477 | a rook on rank 8 of an open file lists ranks 9 to 15, because the rank is never compared with 8 |
| Moves.LeaperMoves | Chess.py:557-566 | a knight or king lists exactly the squares one offset away that pass the bounds test and hold no own piece (also 606-615) |
| Moves.CornerKnightMoves | Chess.py:560-561 | a knight on a1 lists only b3 and c2, each when it holds no own piece |
| Moves.SliderMoves | Chess.py:541-550 | a rook, bishop or queen lists exactly the non-own squares passing the bounds test (file 1..8, rank at least 1) 1..7 steps along one of its directions with nothing standing before them (also 573-582, 589-599) |
| Moves.RaysMeetOnlyOnSameRay | Chess.py:544 | two unit rays from a square reach the same square only along the same direction at the same distance |
| Moves.SliderStopsAtFirstPiece | Chess.py:487 | past the first piece on a slider's ray, no square of that ray is listed, whatever its colour |
| Moves.PawnStraightOntoEmpty | Chess.py:494 | a pawn lists a square on its own file only when it is empty and one step ahead, or two steps ahead from rank 2 or 7 over an empty square |
| Moves.PawnDiagonalOnlyCaptures | Chess.py:485-486 | a pawn lists a square off its file only when it holds an enemy piece one rank ahead on a neighbouring file |
| Moves.PawnCaptures | Chess.py:485-486 | conversely, a pawn does list an enemy piece one rank ahead on either neighbouring file when that square passes the bounds test |
| Moves.PawnAdvances | Chess.py:521-526 | every square a pawn lists is one or two ranks ahead in its colour's direction |
| Moves.PawnSingleStep | Chess.py:530-533 | the single step is listed exactly when it passes the bounds test and is empty |
| Moves.PawnDoubleStep | Chess.py:525-526 | from rank 2 or 7, of either colour, the double step over two empty squares is listed |
| MoveExamples.PawnCaptureListedTwice | Chess.py:528-534 | a white pawn on a2 with a black knight on b3 lists a3, a4, b3, b3 |
| Moves.RayStep | Chess.py:547-549 | one more distance appends that distance's attempt |
| Moves.SweepStep | Chess.py:546 | one more direction appends that direction's list |
| MoveExamples.EmptyBoardRay | Chess.py:547-549 | on the empty board a rook's list along a direction has one entry per distance passing the bounds test |
| MoveExamples.CentreRookOnEmptyBoard | Chess.py:477 | a rook on d4 of an empty board lists 17 squares, not 14 |
| Position.PawnRowsKeys | Chess.py:177-179 | after the first loop has done files 1..n-1, exactly the squares of those files on ranks 2 and 7 are filled |
| Position.PawnRowsValues | Chess.py:178-179 | those squares hold the white and black pawns |
| Position.PawnRowsSize | Chess.py:177-179 | the first loop fills two squares per file |
| Position.SetupKeys | Chess.py:181-183 | after the second loop has done files 1..n-1, exactly the pawn squares and the back-rank squares of those files are filled |
| Position.PawnFileAdded | Chess.py:177-179 | one step of the first loop adds exactly that file's two pawn squares |
| Position.BackFileAdded | Chess.py:181-183 | one step of the second loop adds exactly that file's two back-rank squares |
| Position.SizeAdded | Chess.py:176-183 | each loop step writes two squares not yet on the board, so the board grows by two |
| Position.SetupValues | Chess.py:182-183 | back-rank squares hold rook, knight, bishop, queen, king, bishop, knight, rook by file, white on rank 1 and black on rank 8 |
| Position.SetupSize | Chess.py:181-183 | the second loop adds two squares per file |
| Position.StartPositionContents | Chess.py:169-183 | the starting board has 32 entries, exactly on ranks 1, 2, 7 and 8 of files 1..8, each piece stored under its own square |
| Position.StartKings | Chess.py:173-183 | the kings start on e1 and e8 and nowhere else, and d8 holds the black queen |
| OpeningMoves.PawnOnFreeFile | Chess.py:518-534 | a pawn on rank 2 or 7 with the two squares ahead and both forward diagonals empty lists exactly its one-square and two-square steps, in that order |
| OpeningMoves.KnightList | Chess.py:557-566 | a knight's list is its eight one-step attempts in the order of its offset table |
| OpeningMoves.WhiteKnightOnBackRank | Chess.py:557-566 | a white knight on b1 or g1 with rank 3 beside it empty and its own piece on d2 or e2 lists exactly those two rank-3 squares |
| OpeningMoves.PawnOpening | Chess.py:518-534 | every pawn of the starting position lists exactly its one-square and two-square steps |
| OpeningMoves.WhiteKnightOpening | Chess.py:557-566 | each white knight of the starting position lists exactly the two rank-3 squares beside its file |
| OpeningMoves.WhiteBackRankStuck | Chess.py:469-500 | white's rooks, bishops, queen and king list no square in the starting position (also 541-550, 573-615) |
| OpeningMoves.OpeningMovesOn | Chess.py:169-183 | on a board holding exactly the starting pieces, a pawn or white piece lists a square exactly when it is one of the pawn's two steps or the knight's two rank-3 squares, and the list has two entries for pawns and knights and none otherwise |
| OpeningMoves.StartPositionMoves | Chess.py:169-183 | the same for the starting position itself (move lists at 518-566) |
| OpeningMoves.FreeStepListed | Chess.py:469-500 | a piece other than a pawn lists the empty one-step square along any of its directions that passes the bounds test |
| OpeningMoves.BlackLeavesOn | Chess.py:477 | on a board holding exactly the starting pieces, every black back-rank piece lists a square above rank 8 |
| OpeningMoves.BlackBackRankLeavesBoard | Chess.py:477 | the same for the starting position itself |
| OpeningMoves.BlackKnightOnBackRank | Chess.py:557-566 | the b8 knight, with a10, c10, d9, a6 and c6 empty and its own piece on d7, lists exactly those five squares in that order |
| OpeningMoves.BlackKnightOpening | Chess.py:477 | in the starting position the b8 knight lists a10, c10, d9, a6 and c6 |
| Position.MoveFrame | Chess.py:347-350 | a plain move empties the origin, writes the new piece at the destination, changes no other square and keeps every piece under its own square |
| Position.MoveSize | Chess.py:348-350 | the board loses one entry exactly when the destination was occupied by another piece |
| Position.CastleFrame | Chess.py:336-345 | castling moves the king to its destination and writes a rook next to it on the rook's side, changing nothing else and keeping the board well formed |
| Castling.CastleDestinations | Chess.py:256-276 | at most two destinations, two files east first, then two files west, on the king's rank; each is offered exactly when the king is on e1 or d8, some own rook is on a corner, and the squares toward that side (two east and three west for white, three east and two west for black) are empty |
| Castling.RookChoices | Chess.py:281-297 | a piece is drawn from exactly when it is a rook of the mover's colour on rank 1 or 8 and on file 8 for the east destination, file 1 for the west one |
| Castling.CastleSquaresDistinct | Chess.py:256-297 | for an offered destination and a rook chosen for it, the king's square, the rook's square, the destination and the rook's landing square are pairwise different |
| Castling.RookLandsBesideKing | Chess.py:339-345 | the rook lands midway between the king's home square and its destination |
| Castling.NoCastlingFromStart | Chess.py:263 | in the starting position no king can castle, and the black king is not even on a home square |
| Castling.WhiteKingBlockedAtStart | Chess.py:266-270 | from e1 in the starting position both paths are blocked |
| Attacks.StepInjective | Chess.py:419 | different step counts along the diagonal give different squares |
| Attacks.DiagonalMembership | Chess.py:416-419 | the diagonal holds exactly the squares 1 up to king file minus 3 steps from the checking piece toward the king |
| Attacks.DiagonalCoversPath | Chess.py:419 | every square strictly between checking piece and king is in the diagonal exactly when their distance is at most king file minus 2, or they are adjacent |
| Attacks.DiagonalStaysOnPath | Chess.py:419 | the diagonal holds only squares strictly between the two exactly when king file minus 3 is below their distance |
| Attacks.DiagonalReachesKing | Chess.py:419 | on a true diagonal, the king's own square is in the diagonal exactly when the distance is at most king file minus 3 |
| AttackExamples.BackRankCheck | Chess.py:352-369 | a black rook on a1 lists the square of a white king on h1 |
| AttackExamples.KingListsOnlyG1 | Chess.py:392 | in that position the king lists g1 and nothing else |
| AttackExamples.RookCoversG1 | Chess.py:391 | the rook on a1 lists g1 |
| AttackExamples.BackRankNoFlight | Chess.py:391-393 | so the king has no square to flee to |
| AttackExamples.BackRankDefenders | Chess.py:385 | the white pieces other than the king are the two pawns |
| AttackExamples.BackRankPawnsReachRanksThreeAndFour | Chess.py:385-387 | those pawns list only squares on ranks 3 and 4 |
| AttackExamples.BackRankMate | Chess.py:371-427 | the position is mate by the heuristic: no capture, no flight, no block on the first rank |
| AttackExamples.RookOnA8LiftsMate | Chess.py:387-389 | a white rook on a8 that can take the checking rook makes it not mate |
| Notation.FileNumber | Chess.py:155 | a letter has a file number exactly when it is a..h, and the number maps back to the letter |
| Notation.RankNumber | Chess.py:103 | a rank digit converts to 1..8 and back |
| Notation.AcceptedCases | Chess.py:217-222 | the prompt accepts a command ending in a square, or one of length at least 2 starting and ending with 'o'; no command is both; "o" is refused |
| Notation.MoveParse | Chess.py:72-108 | the parse starts with one of "prnbqk", its square has file and rank 1..8, and a 'p' is inserted only before a letter other than r, n, b, q, k |
| Notation.ParseRoundTrip | Chess.py:72-108 | the command is rebuilt from its parse by dropping the inserted 'p' and writing the square back |
| Notation.UnparseRoundTrip | Chess.py:72-108 | every shape a parse can take is the parse of its rebuilt command |
| Notation.ParseExamples | Chess.py:84-105 | "e4", "exd5", "nf3", "bxc6" and "b4" parse to pawn to e4, pawn from e capturing on d5, knight to f3, bishop capturing on c6, and pawn to b4 |
| Notation.CaptureFilter | Chess.py:235-236 | a pawn command with an 'x' filters on the file named after the 'p' (the filter's file names that letter) exactly when that letter is a file letter, matches nothing exactly when it is not, and any other command does not filter |
| Notation.Candidates | Chess.py:231-236 | a piece is considered exactly when it is of the named class and the mover's colour, lists the square, and, for a pawn capture, stands on the named file (none when that letter is not a file) |
| Notation.CandidateTarget | Chess.py:231-233 | a candidate is of the named class and the mover's colour, and its square is on the board and holds no own piece |
| Notation.PawnCandidateCaptures | Chess.py:235-236 | a pawn candidate changing file takes an enemy piece one rank ahead, and under a capture filter it stands on the named file |
| Chess.Game.constructor | Chess.py:160-167 | a new game holds the starting position |
| Chess.Game.InitializeBoard | Chess.py:169-183 | the two loops write the starting position over the board, leaving other squares as they were |
| Chess.Game.MovePiece | Chess.py:320-350 | the board becomes the plain-move or castling result and stays well formed |
| Chess.Game.Check | Chess.py:352-369 | the lookup of the other side's king fails exactly when it has none and the mover has pieces; a reported pair is an own piece listing that king's square; no report means the mover has no pieces or some opposing king is listed by no own piece |
| Chess.Game.BaseDiagonal | Chess.py:412-419 | the loop over the checking piece's moves produces the diagonal |
| Chess.Game.DefenderBlocks | Chess.py:396-425 | the loop over defenders finds one exactly when a defender lists a square counted as a block |
| Chess.Game.AllPossibleMoves | Chess.py:391 | the squares collected are exactly those some own piece lists |
| Chess.Game.DefenderCaptures | Chess.py:387-389 | the first loop answers yes exactly when some defender (a piece of the other colour that is not a king) lists the checking piece's square |
| Chess.Game.KingFlees | Chess.py:391-393 | the king's loop answers yes exactly when the king lists a square no piece of the mover's colour lists |
| Chess.Game.Covered | Chess.py:392 | the loop over the king's squares finds all of them in the collected list exactly when each is there |
| Chess.DiagonalBySigns | Chess.py:416-419 | the squares built from the two sign quotients are the diagonal the heuristic uses |
| Chess.Game.Checkmate | Chess.py:371-427 | the verdict is mate exactly when no defender can take the checking piece, the king lists no square left unlisted by the mover's pieces, and no defender reaches a blocking square |
| Chess.Game.EndOfTurn | Chess.py:305-315 | the end of a turn reports check or mate on a pair `check` returned, according to the heuristic |
| Chess.Game.Castle | Chess.py:254-303 | castling fails with no king, is refused when no destination is open, fails when the chosen side (toward h unless the player picks the other side when both are open) has no corner rook, and otherwise moves the king to that side and a rook from it as castling does |
| Chess.Game.PiecesReaching | Chess.py:231-233 | the loop collects exactly the pieces of the named class and colour that list the square |
| Chess.Game.PlayMove | Chess.py:227-253 | an unknown capture file fails only when there is a piece to filter; no candidate leaves the board unchanged; otherwise a candidate moves to the square |
| Render.GlyphInjective | Chess.py:156-158 | no piece is drawn as '.', and two pieces drawn alike share class and colour |
| Render.ToText | Chess.py:185-199 | the nested loops produce the drawing the specification function describes |
| Render.RankText | Chess.py:192-198 | the inner loop produces one rank's line |
| Render.JoinLines | Chess.py:199 | the lines are joined with newlines |
| Render.CellsShape | Chess.py:194-196 | each of the first files' cells is its glyph followed by a space |
| Render.RankLineShape | Chess.py:192-197 | a rank line has 21 characters, and file f's glyph is at position 3 + 2(f-1) |
| Render.BodyIsJoin | Chess.py:189-199 | the header and the rank lines joined with newlines can be built one rank line at a time |
| Render.BodyShape | Chess.py:189-199 | the header plus the lines of ranks 8 down to i+1 has 18 + 22(8-i) characters and shows square (f, r) at 22(9-r) + 2(f-1) |
| Render.FramedLayout | Chess.py:199 | appending the footer header keeps those positions and gives 214 characters |
| Render.RenderLayout | Chess.py:185-199 | the drawing has 214 characters, and square (f, r) is drawn at position 22(9-r) + 2(f-1) |
| Render.RenderDeterminesBoard | Chess.py:185-199 | two boards drawn alike agree on which on-board squares are occupied, and by what class and colour |

## Left out

- **I/O and the game shell.** `interactive.__init__`, the menus, screen
  clearing and all printing are left out. So are the `cycle` over players
  and the re-prompt loops; each turn branch is a method, and re-prompting is
  an outcome. The lower-casing of input is also left out: commands are taken
  as already lower-case.
- **The `player` class.** Names and elapsed time are left out. The first
  player is always white, so colours are fixed as White (ranks 1 and 2) and
  Black.
- **`disambiguate`.** The user's choice is not modelled. For pieces, the
  piece moved is some candidate. For castling, the choice is the `west`
  parameter of `Chess.Game.Castle`.
- **Dictionary order.** Python lists built from `board.values()` follow
  insertion order, but the model's collections of pieces are sets. Where the
  source takes the first element, the model takes an arbitrary one:
  - the king in `check`;
  - the first attacker `check` returns;
  - `the_king[0]` and `rook_to_move[0]` in castling.
- **Floating point.** The float quotients in `checkmate` become integer
  signs. Their values are ±1 there, and Python compares them equal to the
  integer squares.
- **Castling into the rook square.** `Position.CastleFrame` assumes the four
  squares involved are distinct; `Castling.CastleSquaresDistinct` proves they
  are for every destination castling offers and every rook chosen for it.
- **Chess.Game.Check:** which king is inspected when there are several
  opposing kings is not determined. The contract states the outcome for
  whichever was inspected, which is exact when there is one.
- **Chess.Game.PlayMove:** the piece moved when several candidates exist is
  not determined, for the same reason.
