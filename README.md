# A verified model of the chess rules engine of Chess_game

This project models, in Dafny, the rules engine of a small pygame chess program:
the `Cell` class of `chess.py` with its move generators, its self-check filter
and its `move`, the module functions of `chess.py` that search, build and set up
the board, and the three board-wide questions of `utilities.py`.

The board is an 8x8 grid of cells indexed `board[x][y]`: x is the column and y
the row. Row 0 is black's back rank and row 7 white's, so white pawns move toward
smaller y. Each cell holds a piece tag (`Empty`, `Pawn`, `Knight`, `Bishop`,
`Rook`, `Queen`, `King`) and a piece colour (`Black` for 0, `White` for 1). It
also caches two lists of destinations: `possibleMoves` (quiet moves) and
`possibleKills` (captures).

The project has five modules.

- `Board` (board.dfy) holds the values everything else is stated over:
  coordinates, squares, and a `Position`, the 8x8 placement of tags and colours.
  It also defines `Play` (a piece carried from one square to another, as `move`
  and the self-check test do it) and `Filled` (the standard setup).
- `MoveRules` (moverules.dfy) defines, as functions of a placement, the lists
  each generator produces. The lists are kept in the source's order and with the
  source's duplicates. Lemmas state what those lists mean: which squares are on
  them, what the squares hold, and where a ray stops.
- `CheckRules` (checkrules.dfy) defines, as functions of a placement:
  - the king search of `get_king_pos` and the check test of `isCheck`;
  - the self-check filter of `remove_impossible_moves`, both as the list of
    candidates that pass and as the source's loop of `list.remove` rounds;
  - the questions of `utilities.py`.

  Lemmas connect each pair.
- `Chess` (chess.dfy) is the imperative part. `Cell` is a class with the
  source's fields. Its generators, `calc_possible_moves`,
  `remove_impossible_moves`, `calc_moves` and `move` are methods that rewrite
  those fields. `get_king_pos`, `isCheck`, `deepcopy`, `init_cells` and
  `fill_board` are methods over the grid.
- `Utilities` (utilities.dfy) holds `is_check`, `is_threatened` and
  `calc_checkmate`, as nested scans with early return.

Every method that reads the grid takes a ghost `Position` p together with the
requirement `Holds(board, p)`: the tags and colours of the cells are those of p.
Its contract then ties the result, or the new state, to the `MoveRules` and
`CheckRules` functions of p. Only the cached lists are rewritten by the
generators, the filter and the board-wide questions. These methods may modify
nothing else (their `modifies` clauses name only those two fields), so the
placement is unchanged.

`chess.py` has no castling, no castling rights and no promotion. `is_threatened`
(`utilities.py:20-27`) consults only the quiet destinations of the pieces, not
their captures, and `IsThreatened` does the same.

The four board scans (`isCheck`, `is_check`, `is_threatened`, `calc_checkmate`)
rewrite the cached lists of the cells they visit and no others. Each scan's
contract says so through `CacheAt(board, x, y)`, the two lists of cell (x, y).
A cell keeps its lists from before the call, or it is one the scan visits and
now holds the lists that scan computes. When a scan runs to the end without
returning early, every cell it visits holds those lists.

## Model

| member | source | states |
|---|---|---|
| Board.Play | chess.py:147-149 | the target square takes the mover's tag and colour; the source square loses its tag and keeps its colour; every other square is unchanged |
| Board.BackRank | chess.py:761-768 | the back rank has its king in column 4 and its queen in column 3, and nowhere else |
| MoveRules.PseudoMoves | chess.py:119-135 | every quiet destination the generators leave is an empty square of the board and never the piece's own square |
| MoveRules.PseudoKills | chess.py:119-135 | every capture destination holds a piece of the other colour (so never a friend) and is never the piece's own square |
| MoveRules.MovesAndKillsDisjoint | chess.py:119-135 | no square is both a quiet destination and a capture destination of the same piece |
| MoveRules.PawnDestinations | chess.py:161-200 | a pawn's quiet destinations are exactly the empty square one row forward, plus the empty square two rows forward from the home row (6 for white, 1 for black) when the first is empty; its captures are exactly the forward diagonals holding an enemy; a pawn on its last row gets nothing |
| MoveRules.PawnQuiet | chess.py:164-190 | every quiet destination of a pawn is empty |
| MoveRules.PawnKills | chess.py:172-200 | every capture destination of a pawn holds an enemy |
| MoveRules.KnightTargetsAreJumps | chess.py:202-270 | the eight squares knight_exec tries are exactly the (1, 2) and (2, 1) jumps |
| MoveRules.KingTargetsAreNeighbours | chess.py:617-683 | the eight squares king_exec tries are exactly the neighbours |
| MoveRules.StepMembers | chess.py:202-270 | for a list of tried squares, the quiet list holds exactly the empty ones and the capture list exactly those holding an enemy |
| MoveRules.KnightDestinations | chess.py:202-270 | a knight's quiet moves are exactly the empty on-board jumps and its captures exactly the jumps holding an enemy; together, the on-board jumps not holding a friend |
| MoveRules.KingDestinations | chess.py:617-683 | a king's quiet moves are exactly the empty neighbours and its captures exactly the neighbours holding an enemy; together, the on-board neighbours not holding a friend |
| MoveRules.RayQuiet | chess.py:281-287 | every quiet destination of a ray is an empty square of the board |
| MoveRules.RayStop | chess.py:281-292 | the square where a ray's walk stops is off the board or occupied |
| MoveRules.RayKills | chess.py:283-292 | every capture destination of a ray holds an enemy |
| MoveRules.RayQuietShape | chess.py:281-287 | the i-th quiet destination of a ray is the square i+1 steps along it, and the walk stops at the square one step past the last one |
| MoveRules.RayQuietOnRay | chess.py:281-287 | every quiet destination lies 1 to 7 steps along the ray |
| MoveRules.RayLength | chess.py:281-287 | when the first k squares along the ray are empty and the next is not, the ray has exactly k quiet destinations |
| MoveRules.RayKillsShape | chess.py:283-292 | a square is a capture of a ray exactly when it is the square where the walk stopped and holds an enemy: at most one distinct capture per ray, though the list may repeat it |
| MoveRules.RayStaysOnBoard | chess.py:280-292 | a ray reaches at most 7 squares from its start |
| MoveRules.QueenIsBishopAndRook | chess.py:447-615 | a square is a queen's quiet move (capture) exactly when it is a bishop's or a rook's quiet move (capture) from the same square |
| MoveRules.WalkEnd | chess.py:281-292 | when the walk stops, its quiet list is the ray's, and its captures plus the "kill check if close" are the ray's |
| CheckRules.KingFrom | chess.py:704-708 | the scan from (x, y) answers a king of the colour not before (x, y), with no such king between (x, y) and it; None when there is none |
| CheckRules.KingSquareIsFirstKing | utilities.py:3-7 | get_king_pos answers Some(k) exactly when k holds a king of the colour and no such king comes before it in column-major order, and None exactly when there is no such king |
| CheckRules.InCheckByPieces | utilities.py:10-17 | the check test is true exactly when the colour has a king and some piece of the other colour lists the king's square among its captures; empty cells contribute nothing |
| CheckRules.NoCheckWithoutKingOrEnemy | chess.py:711-718 | without a king of the colour, or without any piece of the other colour, there is no check |
| CheckRules.CheckIsAttackOnKing | chess.py:711-718 | in check, some enemy piece lists among its captures a square holding a king of the colour |
| CheckRules.LegalOnlyMembers | chess.py:143-155 | a candidate survives the filter exactly when it was a candidate and playing it leaves the mover's king out of check; the survivors are a sub-multiset of the candidates |
| CheckRules.LegalOnlyAppend | chess.py:144 | filtering moves + kills gives the filtered moves followed by the filtered kills |
| CheckRules.Remove | chess.py:152-155 | list.remove takes exactly one occurrence of the square out of the list |
| CheckRules.RemoveAfter | chess.py:152-155 | list.remove takes out the first occurrence and keeps the order of the rest |
| CheckRules.ApartMeans | chess.py:143-155 | the recursive disjointness test on the two lists means that no square of the quiet list is in the capture list |
| CheckRules.RoundStep | chess.py:145-155 | one round of the loop carries the filter one candidate further |
| CheckRules.RoundsFilter | chess.py:144-155 | after n rounds over disjoint lists, each list has its decided candidates filtered, in order, and the rest as it was |
| CheckRules.RoundsDone | chess.py:144-155 | after every round, each list holds, in order, exactly its candidates that pass the self-check test |
| CheckRules.RoundsFound | chess.py:151-155 | a candidate that fails the test is, when its round comes, still in the quiet list or in the capture list, so list.remove never raises |
| CheckRules.LegalNeverSelfCheck | chess.py:157-159 | a destination calc_moves keeps is on the board, and playing it never leaves the mover's king in check |
| CheckRules.NoPieceNoLegalMove | utilities.py:30-38 | a colour with no piece on the board has no legal move, whatever its check status |
| CheckRules.OccupiedNeverThreatened | utilities.py:20-27 | an occupied square, or one off the board, is never threatened, because captures are not consulted |
| CheckRules.StartKingAt | chess.py:758-793 | in the setup, a cell holds the black king exactly at (4, 0) and the white king exactly at (4, 7) |
| CheckRules.StartKings | chess.py:758-793 | the setup has exactly one king per colour, and get_king_pos finds them at (4, 0) and (4, 7) |
| Chess.TryStep | chess.py:205-211 | one guarded block of knight_exec or king_exec adds an empty on-board square to the quiet list and an enemy-held one to the capture list, and nothing otherwise |
| Chess.KillStep | chess.py:173-175 | one guarded capture test of pawn_exec adds the square exactly when it is on the board and holds an enemy |
| Chess.PawnLists | chess.py:161-200 | pawn_exec's lists are the pawn's quiet and capture destinations |
| Chess.KnightLists | chess.py:202-270 | knight_exec's eight guarded blocks produce the knight's destinations in the source's order |
| Chess.KingLists | chess.py:617-683 | king_exec's eight guarded blocks produce the king's destinations in the source's order |
| Chess.Slide | chess.py:281-287 | the walking loop of one ray lists the contiguous empty squares along it and stops in front of the first square that is off the board or occupied |
| Chess.RayLists | chess.py:280-292 | one ray, walk and "kill check if close", produces the ray's quiet list and its capture list |
| Chess.GetKingPos | chess.py:704-708 | get_king_pos answers the first king of the colour in column-major order, or None |
| Chess.IsCheck | chess.py:711-718 | isCheck answers exactly the check test of the placement and keeps the placement; a cell changes its cached lists only when its piece colour is not the king's colour, and then it holds its pseudo-legal lists; on a false answer every such cell holds them |
| Chess.DeepCopy | chess.py:146 | deepcopy gives fresh cells holding the same placement |
| Chess.CheckAfter | chess.py:146-151 | the self-check test answers whether playing s to t on a copy leaves the mover's king in check; the real board keeps its placement |
| Chess.FilterOne | chess.py:145-155 | one round of remove_impossible_moves gives the lists after that round |
| Chess.FilterLists | chess.py:144-155 | the loop leaves each list holding, in order, exactly its candidates that pass the self-check test |
| Chess.InitCells | chess.py:727-736 | the new grid has no piece and piece colour 0 on every cell, and cell (i, j) is light (1) exactly when i + j is even |
| Chess.FillBoard | chess.py:758-793 | the board then holds black's back rank r, n, b, q, k, b, n, r on row 0 and pawns on row 1, white's on rows 7 and 6, and rows 2 to 5 as before |
| Chess.BlackBackRank | chess.py:761-768 | the first eight set_piece calls set up row 0 |
| Chess.BlackPawns | chess.py:769-776 | the next eight set up row 1 |
| Chess.WhiteBackRank | chess.py:778-785 | the next eight set up row 7 |
| Chess.WhitePawns | chess.py:786-793 | the last eight set up row 6 |
| Chess.Place | chess.py:761 | one set_piece call of fill_board sets up its own cell and no other |
| Chess.Cell.constructor | chess.py:53-62 | a new cell holds no piece, has piece colour 0 and has empty lists |
| Chess.Cell.Clone | chess.py:146 | the copy of a cell has all of its fields |
| Chess.Cell.SetPiece | chess.py:85-87 | the cell then holds the given tag and colour |
| Chess.Cell.CalcPossibleMoves | chess.py:119-135 | the cell's lists become its piece's pseudo-legal quiet and capture destinations, both empty for an empty cell |
| Chess.Cell.PawnExec | chess.py:161-200 | the cell's lists become the pawn's destinations |
| Chess.Cell.KnightExec | chess.py:202-270 | the cell's lists become the knight's destinations |
| Chess.Cell.BishopExec | chess.py:272-358 | the cell's lists become the four diagonal rays' lists, in the source's order |
| Chess.Cell.RookExec | chess.py:360-445 | the cell's lists become the four straight rays' lists, in the source's order |
| Chess.Cell.QueenExec | chess.py:447-615 | the cell's lists become the bishop's four rays' lists followed by the rook's four |
| Chess.Cell.KingExec | chess.py:617-683 | the cell's lists become the king's destinations |
| Chess.Cell.RemoveImpossibleMoves | chess.py:143-155 | each list keeps, in order, exactly its destinations that do not leave the mover's king in check |
| Chess.Cell.CalcMoves | chess.py:157-159 | the cell's lists become its legal quiet moves and legal captures |
| Chess.Cell.Move | chess.py:685-689 | when the target is among the cell's destinations, the board then holds the placement with the piece played there; otherwise the placement is unchanged |
| Utilities.IsCheck | utilities.py:10-17 | is_check is true exactly when some non-empty cell of the other colour lists the colour's king square among its captures; it keeps the placement; only enemy pieces' cells change their cached lists, to their pseudo-legal lists, and on a false answer every enemy piece's cell holds them |
| Utilities.IsThreatened | utilities.py:20-27 | is_threatened is true exactly when some piece of the colour lists the square among its quiet destinations; it keeps the placement; only that colour's pieces' cells change their cached lists, to their pseudo-legal lists, and on a false answer every such cell holds them |
| Utilities.CalcCheckmate | utilities.py:30-38 | calc_checkmate is true exactly when no piece of the colour has a legal quiet move or capture, check or not; it keeps the placement; only that colour's pieces' cells change their cached lists, to their legal lists, and on a true answer every such cell holds them |

## Left out

- Rendering, pygame set-up, asset loading, `draw`, the tag colours, `untag_all`,
  `on_click`, `get_chosen` and the main event loop are user interface and are not
  modelled. So are the `clickFlag` and `tag_color` fields of a cell.
- `__repr__` is debug text and is not modelled.
- `constants.py` is not part of this model. `COLS = 8` and `ROWS = 8`
  (chess.py:9-10) appear as the literal 8.
- Castling, promotion, en passant and the draw rules do not exist in the code and
  are not invented.
- Python's `[x, y]` lists for coordinates are the `Coord` datatype, and `in` on a
  list of them is `in` on a sequence.
- The `board` that `move`, `init_cells` and `fill_board` reach as a global is a
  parameter here, and `InitCells` returns the grid it builds. The global starts empty, so this is
  the grid `init_cells` appends.
- `get_possible_moves` and `get_possible_kills` are plain reads of the two fields.
- The ghost placement `p` that the methods take exists only in the model.
- Bodies moved out of the generators:
  - the bodies of the generators are module-level methods (`PawnLists`,
    `KnightLists`, `KingLists`, `RayLists`) that return the two lists;
  - each `*Exec` method stores them in the fields;
  - the source appends to the fields one entry at a time, and those intermediate
    states of the fields are not modelled.
- Bishop, rook and queen walk their 16 rays with slightly different guards:
  - some test `x != 0` after reading `board[x - 1]`, which in Python reads
    `board[-1]`;
  - some `break` one step early when the next square would be off the board.

  One walk per direction models them all: it steps while the next square is on
  the board and empty. The negative-index reads never append anything. An early
  `break` leaves the final capture check looking at a square just listed as
  empty, which adds nothing. The lists are the same.
- The loop of `remove_impossible_moves`:
  - it runs on local copies of the two lists, and the filtered lists are stored
    in the fields at the end;
  - the source removes from the fields in place;
  - during the loop only the discarded deep copy of the board reads those
    fields, and `isCheck` never recomputes lists for the mover's colour.
- Chess.Cell.RemoveImpossibleMoves: requires the cached lists to be on the board
  and disjoint. This makes the proof easier and is not a restriction of the
  source. `calc_moves` (chess.py:157-159) is the only caller, and it always
  passes the lists `calc_possible_moves` just computed, which meet the
  requirement. The source does not raise here even on overlapping lists:
  - a square failing the self-check gets one round per occurrence in
    `possible_moves + possible_kills`;
  - each round removes one occurrence;
  - every round for that square gives the same answer.

  Overlapping lists are not modelled.
- Chess.Cell.Move: requires the target to be on the board. The source is only
  called with squares of the board.
- Chess.DeepCopy: states that the copy holds the same placement in fresh cells.
  It does not state that the cached lists are copied too. Nothing reads them
  before they are recomputed.
- Chess.GetKingPos also stands for `utilities.get_king_pos`, which is the same
  search.
- Chess.IsCheck: after an early `True` it says that each cell keeps its lists or
  holds its recomputed ones, not which prefix of the scan was visited.
- Utilities.IsCheck: the same holds after an early `True`.
- Utilities.IsThreatened: the same holds after an early `True`.
- Utilities.CalcCheckmate: the same holds after an early `False`.
- The commented-out test position in `chess.py` is not code and is not modelled.
