/** The board of chess.py: a grid of Cell objects, each holding a piece and the
    two lists of destinations its generators leave behind; and the module
    functions that search the grid, build it and set it up.

    Every operation takes, as a ghost parameter p, the placement the board
    holds (Holds(board, p)), and is proved against the functions of MoveRules
    and CheckRules applied to p. */
module Chess {
  import opened Board
  import opened MoveRules
  import opened CheckRules

  // ------------------------------------------------------------- the grid

  /** The board is a list of 8 columns of 8 cells, cell (i, j) knowing its own
      coordinates i and j. */
  ghost predicate IsGrid(board: seq<seq<Cell>>) {
    |board| == 8 && (forall i :: 0 <= i < 8 ==> |board[i]| == 8) &&
    forall i, j :: 0 <= i < 8 && 0 <= j < 8 ==> board[i][j].x == i && board[i][j].y == j
  }

  ghost function Cells(board: seq<seq<Cell>>): set<Cell> {
    set i, j | 0 <= i < |board| && 0 <= j < |board[i]| :: board[i][j]
  }

  /** The board holds the placement p: the piece tag and piece colour of every
      cell are what p gives its coordinates. Only those two fields are read, so
      rewriting the cached lists of any cell keeps it. */
  ghost predicate Holds(board: seq<seq<Cell>>, p: Position)
    reads Cells(board)`piece, Cells(board)`pieceColor
  {
    IsGrid(board) &&
    forall i, j :: 0 <= i < 8 && 0 <= j < 8 ==> Square(board[i][j].piece, board[i][j].pieceColor) == p[i][j]
  }

  /** The two cached lists of cell (x, y). */
  ghost function CacheAt(board: seq<seq<Cell>>, x: int, y: int): Lists
    requires IsGrid(board) && 0 <= x < 8 && 0 <= y < 8
    reads board[x][y]
  {
    Lists(board[x][y].possibleMoves, board[x][y].possibleKills)
  }

  /** Two cells of the grid at different coordinates are different objects,
      so rewriting one leaves the other's fields alone. */
  lemma OtherCells(board: seq<seq<Cell>>, i: int, j: int)
    requires IsGrid(board) && 0 <= i < 8 && 0 <= j < 8
    ensures forall x, y :: 0 <= x < 8 && 0 <= y < 8 && board[x][y] == board[i][j] ==> x == i && y == j
  {
  }

  // ------------------------------------------------------------- one cell

  /** The test the generators make before listing a quiet move: (i, j) is on
      the board and its cell holds no piece. */
  function FreeAt(board: seq<seq<Cell>>, ghost p: Position, t: Coord): (b: bool)
    requires Holds(board, p)
    reads Cells(board)
    ensures b == IsEmptyAt(p, t)
  {
    0 <= t.x < 8 && 0 <= t.y < 8 && board[t.x][t.y].piece == Empty
  }

  /** The test the generators make before listing a capture for a mover of
      colour col: (i, j) is on the board and its cell holds a piece whose
      colour is not col. */
  function EnemyAt(board: seq<seq<Cell>>, ghost p: Position, t: Coord, col: Color): (b: bool)
    requires Holds(board, p)
    reads Cells(board)
    ensures b == HoldsEnemy(p, t, col)
  {
    0 <= t.x < 8 && 0 <= t.y < 8 && board[t.x][t.y].piece != Empty && board[t.x][t.y].pieceColor != col
  }

  /** One guarded block of knight_exec or king_exec, for a mover of colour col:
      when the guard inRange holds (it is the test that the candidate t lies
      on the board), the quiet list grows by t when t is empty and the capture
      list grows by t when t holds an enemy; a friend, or a failed guard, adds
      nothing. */
  function TryStep(board: seq<seq<Cell>>, ghost p: Position, inRange: bool, t: Coord, col: Color, lists: Lists): (r: Lists)
    requires Holds(board, p) && inRange == OnBoard(t)
    reads Cells(board)
    ensures r == Probe(p, t, col, lists)
  {
    if !inRange then lists
    else if board[t.x][t.y].piece != Empty then
      if board[t.x][t.y].pieceColor != col then Lists(lists.moves, lists.kills + [t]) else lists
    else Lists(lists.moves + [t], lists.kills)
  }

  // ------------------------------------------------------ the generators

  /** One guarded capture test of pawn_exec, for a mover of colour col: when
      the guard inRange holds (it is the test that the candidate t lies on the
      board), t joins the captures when it holds an enemy. */
  function KillStep(board: seq<seq<Cell>>, ghost p: Position, inRange: bool, t: Coord, col: Color, kills: seq<Coord>): (r: seq<Coord>)
    requires Holds(board, p) && inRange == OnBoard(t)
    reads Cells(board)
    ensures r == kills + IfEnemy(p, t, col)
  {
    if inRange && board[t.x][t.y].piece != Empty && board[t.x][t.y].pieceColor != col then kills + [t] else kills
  }

  /** pawn_exec for the pawn on s: one step forward onto an empty square, a
      second one from the home row, and the two forward diagonals when they
      hold an enemy, white trying the lower column first and black the higher
      one. */
  method PawnLists(board: seq<seq<Cell>>, ghost p: Position, s: Coord) returns (r: Lists)
    requires Holds(board, p) && OnBoard(s)
    ensures r == Lists(PawnQuiet(p, s), PawnKills(p, s))
  {
    PawnByColour(p, s);
    var col := board[s.x][s.y].pieceColor;
    var moves: seq<Coord>, kills: seq<Coord> := [], [];
    if col == White {
      if s.y > 0 {
        if FreeAt(board, p, Coord(s.x, s.y - 1)) {
          moves := [Coord(s.x, s.y - 1)];
          if s.y == 6 && FreeAt(board, p, Coord(s.x, s.y - 2)) {
            moves := moves + [Coord(s.x, s.y - 2)];
          }
        }
        kills := KillStep(board, p, s.x > 0, Coord(s.x - 1, s.y - 1), White, kills);
        kills := KillStep(board, p, s.x < 7, Coord(s.x + 1, s.y - 1), White, kills);
      }
    } else {
      if s.y < 7 {
        if FreeAt(board, p, Coord(s.x, s.y + 1)) {
          moves := [Coord(s.x, s.y + 1)];
          if s.y == 1 && FreeAt(board, p, Coord(s.x, s.y + 2)) {
            moves := moves + [Coord(s.x, s.y + 2)];
          }
        }
        kills := KillStep(board, p, s.x < 7, Coord(s.x + 1, s.y + 1), Black, kills);
        kills := KillStep(board, p, s.x > 0, Coord(s.x - 1, s.y + 1), Black, kills);
      }
    }
    r := Lists(moves, kills);
  }

  /** knight_exec for the knight on s: the eight jumps, each tried under its
      own bounds guard, in the order of the source. */
  method KnightLists(board: seq<seq<Cell>>, ghost p: Position, s: Coord) returns (r: Lists)
    requires Holds(board, p) && OnBoard(s)
    ensures r == Lists(StepQuiet(p, KnightTargets(s)), StepKills(p, KnightTargets(s), At(p, s).color))
  {
    KnightGuards(s);
    var col := board[s.x][s.y].pieceColor;
    r := Lists([], []);
    r := TryStep(board, p, s.x >= 1 && s.y <= 5, Coord(s.x - 1, s.y + 2), col, r);
    r := TryStep(board, p, s.x >= 2 && s.y <= 6, Coord(s.x - 2, s.y + 1), col, r);
    r := TryStep(board, p, s.x >= 1 && s.y >= 2, Coord(s.x - 1, s.y - 2), col, r);
    r := TryStep(board, p, s.x >= 2 && s.y >= 1, Coord(s.x - 2, s.y - 1), col, r);
    r := TryStep(board, p, s.x <= 5 && s.y >= 1, Coord(s.x + 2, s.y - 1), col, r);
    r := TryStep(board, p, s.x <= 6 && s.y >= 2, Coord(s.x + 1, s.y - 2), col, r);
    r := TryStep(board, p, s.x <= 6 && s.y <= 5, Coord(s.x + 1, s.y + 2), col, r);
    r := TryStep(board, p, s.x <= 5 && s.y <= 6, Coord(s.x + 2, s.y + 1), col, r);
    KnightSteps(p, s, col);
  }

  /** king_exec for the king on s: the eight neighbours, each tried under its
      own bounds guard, in the order of the source. */
  method KingLists(board: seq<seq<Cell>>, ghost p: Position, s: Coord) returns (r: Lists)
    requires Holds(board, p) && OnBoard(s)
    ensures r == Lists(StepQuiet(p, KingTargets(s)), StepKills(p, KingTargets(s), At(p, s).color))
  {
    KingGuards(s);
    var col := board[s.x][s.y].pieceColor;
    r := Lists([], []);
    r := TryStep(board, p, s.x > 0, Coord(s.x - 1, s.y), col, r);
    r := TryStep(board, p, s.y > 0, Coord(s.x, s.y - 1), col, r);
    r := TryStep(board, p, s.x < 7, Coord(s.x + 1, s.y), col, r);
    r := TryStep(board, p, s.y < 7, Coord(s.x, s.y + 1), col, r);
    r := TryStep(board, p, s.x > 0 && s.y > 0, Coord(s.x - 1, s.y - 1), col, r);
    r := TryStep(board, p, s.x < 7 && s.y > 0, Coord(s.x + 1, s.y - 1), col, r);
    r := TryStep(board, p, s.x < 7 && s.y < 7, Coord(s.x + 1, s.y + 1), col, r);
    r := TryStep(board, p, s.x > 0 && s.y < 7, Coord(s.x - 1, s.y + 1), col, r);
    KingSteps(p, s, col);
  }

  /** The walking part of one ray of bishop_exec, rook_exec or queen_exec,
      for the piece on s: while the next square along d is on the board and
      empty, it is listed as a quiet move, the square after it is listed as a
      capture when it holds an enemy, and the walk steps on. Returns where the
      walk stopped, k steps from s. */
  method Slide(board: seq<seq<Cell>>, ghost p: Position, s: Coord, col: Color, d: Dir)
      returns (c: Coord, moves: seq<Coord>, kills: seq<Coord>, ghost k: nat)
    requires Holds(board, p) && OnBoard(s) && IsDir(d)
    ensures Walk(p, s, d, col, k, c, moves, kills)
    ensures !IsEmptyAt(p, Next(c, d))
  {
    c, moves, kills := s, [], [];
    k := 0;
    WalkStart(p, s, d, col);
    while FreeAt(board, p, Next(c, d))
      invariant Walk(p, s, d, col, k, c, moves, kills)
      decreases Room(c, d)
    {
      WalkStep(p, s, d, col, k, c, moves, kills);
      var n := Next(c, d);
      var ahead := Next(n, d);
      moves := moves + [n];
      kills := KillStep(board, p, 0 <= ahead.x < 8 && 0 <= ahead.y < 8, ahead, col, kills);
      c, k := n, k + 1;
    }
  }

  /** One ray of bishop_exec, rook_exec or queen_exec for the piece on s: the
      walk, then the "kill check if close" on the square where it stopped. */
  method RayLists(board: seq<seq<Cell>>, ghost p: Position, s: Coord, d: Dir) returns (r: Lists)
    requires Holds(board, p) && OnBoard(s) && IsDir(d)
    ensures r == Lists(RayQuiet(p, s, d), RayKills(p, s, d, At(p, s).color))
  {
    var col := board[s.x][s.y].pieceColor;
    var c, moves, kills;
    ghost var k;
    c, moves, kills, k := Slide(board, p, s, col, d);
    WalkEnd(p, s, d, col, k, c, moves, kills);
    var stop := Next(c, d);
    if EnemyAt(board, p, stop, col) {
      kills := kills + [stop];
    }
    r := Lists(moves, kills);
  }

  // ------------------------------------------------- searching the board

  /** get_king_pos: the cells are visited column by column, each column from
      row 0 down, and the coordinates of the first king of colour col are
      returned; None when there is none. */
  method GetKingPos(board: seq<seq<Cell>>, ghost p: Position, col: Color) returns (r: Option<Coord>)
    requires Holds(board, p)
    ensures r == KingSquare(p, col)
  {
    var i := 0;
    while i < 8
      invariant 0 <= i <= 8
      invariant KingFrom(p, col, i, 0) == KingSquare(p, col)
    {
      var j := 0;
      while j < 8
        invariant 0 <= j <= 8
        invariant KingFrom(p, col, i, j) == KingSquare(p, col)
      {
        var cell := board[i][j];
        if cell.piece == King && cell.pieceColor == col {
          return Some(Coord(cell.x, cell.y));
        }
        j := j + 1;
      }
      i := i + 1;
    }
    return None;
  }

  /** isCheck: every cell whose colour is not col, empty or not, recomputes
      its lists, and the answer is yes as soon as one of them lists the square
      get_king_pos gives for col. Only the cached lists change. */
  method IsCheck(board: seq<seq<Cell>>, ghost p: Position, col: Color) returns (b: bool)
    requires Holds(board, p)
    modifies Cells(board)`possibleMoves, Cells(board)`possibleKills
    ensures Holds(board, p)
    ensures b == InCheck(p, col)
    ensures forall x, y {:trigger CacheAt(board, x, y)} :: 0 <= x < 8 && 0 <= y < 8 ==>
      CacheAt(board, x, y) == old(CacheAt(board, x, y)) ||
      (At(p, Coord(x, y)).color != col && CacheAt(board, x, y) == Lists(PseudoMoves(p, Coord(x, y)), PseudoKills(p, Coord(x, y))))
    ensures !b ==> forall x, y {:trigger CacheAt(board, x, y)} :: 0 <= x < 8 && 0 <= y < 8 && At(p, Coord(x, y)).color != col ==>
      CacheAt(board, x, y) == Lists(PseudoMoves(p, Coord(x, y)), PseudoKills(p, Coord(x, y)))
  {
    var i := 0;
    while i < 8
      invariant 0 <= i <= 8
      invariant Holds(board, p)
      invariant NoCheckerBefore(p, col, i, 0)
      invariant forall x, y {:trigger CacheAt(board, x, y)} :: 0 <= x < 8 && 0 <= y < 8 ==>
        if x < i && At(p, Coord(x, y)).color != col
        then CacheAt(board, x, y) == Lists(PseudoMoves(p, Coord(x, y)), PseudoKills(p, Coord(x, y)))
        else CacheAt(board, x, y) == old(CacheAt(board, x, y))
    {
      var j := 0;
      while j < 8
        invariant 0 <= j <= 8
        invariant Holds(board, p)
        invariant NoCheckerBefore(p, col, i, j)
        invariant forall x, y {:trigger CacheAt(board, x, y)} :: 0 <= x < 8 && 0 <= y < 8 ==>
          if (x < i || (x == i && y < j)) && At(p, Coord(x, y)).color != col
          then CacheAt(board, x, y) == Lists(PseudoMoves(p, Coord(x, y)), PseudoKills(p, Coord(x, y)))
          else CacheAt(board, x, y) == old(CacheAt(board, x, y))
      {
        var cell := board[i][j];
        if cell.pieceColor != col {
          OtherCells(board, i, j);
          cell.CalcPossibleMoves(board, p);
          assert cell.possibleKills == PseudoKills(p, Coord(i, j));
          var king := GetKingPos(board, p, col);
          if king.Some? && king.value in cell.possibleKills {
            assert Checks(p, Coord(i, j), col);
            return true;
          }
          forall x, y | 0 <= x < 8 && 0 <= y < 8
            ensures if (x < i || (x == i && y < j + 1)) && At(p, Coord(x, y)).color != col
              then CacheAt(board, x, y) == Lists(PseudoMoves(p, Coord(x, y)), PseudoKills(p, Coord(x, y)))
              else CacheAt(board, x, y) == old(CacheAt(board, x, y))
          {
            if x != i || y != j {
              assert board[x][y] != cell;
            }
          }
        }
        ScanStep(p, col, i, j);
        j := j + 1;
      }
      i := i + 1;
    }
    ScanEnd(p, col);
    return false;
  }

  // ------------------------------------------- the copy and the self-check

  /** deepcopy of the board: a fresh grid of fresh cells, each a copy of the
      cell at the same place. */
  method DeepCopy(board: seq<seq<Cell>>, ghost p: Position) returns (copy: seq<seq<Cell>>)
    requires Holds(board, p)
    ensures Holds(copy, p)
    ensures forall i, j :: 0 <= i < 8 && 0 <= j < 8 ==> fresh(copy[i][j])
    ensures fresh(Cells(copy))
  {
    copy := [];
    var i := 0;
    while i < 8
      invariant 0 <= i <= 8 && |copy| == i
      invariant forall a :: 0 <= a < i ==> |copy[a]| == 8
      invariant forall a, b :: 0 <= a < i && 0 <= b < 8 ==>
        fresh(copy[a][b]) && copy[a][b].x == a && copy[a][b].y == b &&
        Square(copy[a][b].piece, copy[a][b].pieceColor) == p[a][b]
    {
      var column: seq<Cell> := [];
      var j := 0;
      while j < 8
        invariant 0 <= j <= 8 && |column| == j
        invariant forall a, b :: 0 <= a < i && 0 <= b < 8 ==>
          fresh(copy[a][b]) && copy[a][b].x == a && copy[a][b].y == b &&
          Square(copy[a][b].piece, copy[a][b].pieceColor) == p[a][b]
        invariant forall b :: 0 <= b < j ==>
          fresh(column[b]) && column[b].x == i && column[b].y == b &&
          Square(column[b].piece, column[b].pieceColor) == p[i][b]
      {
        var cell := new Cell.Clone(board[i][j]);
        column := column + [cell];
        j := j + 1;
      }
      copy := copy + [column];
      i := i + 1;
    }
  }

  /** The self-check test of remove_impossible_moves for the piece on s and
      the candidate t: on a deep copy, t takes the mover's tag, s is emptied,
      t takes the mover's colour, and isCheck is asked about the mover's
      colour. The board itself is not touched. */
  method CheckAfter(board: seq<seq<Cell>>, ghost p: Position, s: Coord, t: Coord) returns (check: bool)
    requires Holds(board, p) && OnBoard(s) && OnBoard(t)
    ensures Holds(board, p)
    ensures check == InCheck(Play(p, s, t), At(p, s).color)
  {
    var temp: seq<seq<Cell>> := DeepCopy(board, p);
    var mover: Cell := board[s.x][s.y];
    var target: Cell, source: Cell := temp[t.x][t.y], temp[s.x][s.y];
    target.piece := mover.piece;
    source.piece := Empty;
    target.pieceColor := mover.pieceColor;
    check := IsCheck(temp, Play(p, s, t), mover.pieceColor);
  }

  /** One round of remove_impossible_moves for the piece on s: the candidate
      t, the n-th of moves + kills, is put to the self-check test and, when it
      fails, removed from the quiet list if it is there and from the capture
      list otherwise. */
  method FilterOne(board: seq<seq<Cell>>, ghost p: Position, s: Coord, moves: seq<Coord>, kills: seq<Coord>,
                   n: nat, r: Lists) returns (next: Lists)
    requires Holds(board, p) && OnBoard(s)
    requires forall i :: 0 <= i < |moves| ==> OnBoard(moves[i])
    requires forall i :: 0 <= i < |kills| ==> OnBoard(kills[i])
    requires Apart(moves, kills)
    requires n < |moves| + |kills| && r == Rounds(p, s, moves, kills, n)
    ensures Holds(board, p)
    ensures next == Rounds(p, s, moves, kills, n + 1)
  {
    var t := (moves + kills)[n];
    assert OnBoard(t) by {
      if n < |moves| { assert t == moves[n]; } else { assert t == kills[n - |moves|]; }
    }
    var check := CheckAfter(board, p, s, t);
    RoundsFound(p, s, moves, kills, n);
    RoundsNext(p, s, moves, kills, n + 1);
    next := r;
    if check {
      if t in r.moves {
        next := Lists(Remove(r.moves, t), r.kills);
      } else {
        next := Lists(r.moves, Remove(r.kills, t));
      }
    }
  }

  /** The loop of remove_impossible_moves for the piece on s and its lists
      moves and kills: every candidate of moves + kills, quiet ones first, goes
      through one round. Each list keeps, in order, exactly its candidates
      that pass. */
  method FilterLists(board: seq<seq<Cell>>, ghost p: Position, s: Coord, moves: seq<Coord>, kills: seq<Coord>)
      returns (r: Lists)
    requires Holds(board, p) && OnBoard(s)
    requires forall i :: 0 <= i < |moves| ==> OnBoard(moves[i])
    requires forall i :: 0 <= i < |kills| ==> OnBoard(kills[i])
    requires Apart(moves, kills)
    ensures r == Lists(LegalOnly(p, s, moves), LegalOnly(p, s, kills))
  {
    r := Lists(moves, kills);
    var n := 0;
    while n < |moves| + |kills|
      invariant 0 <= n <= |moves| + |kills|
      invariant Holds(board, p)
      invariant r == Rounds(p, s, moves, kills, n)
    {
      r := FilterOne(board, p, s, moves, kills, n, r);
      n := n + 1;
    }
    RoundsDone(p, s, moves, kills, n);
  }

  // ------------------------------------------------ building and setup

  /** init_cells: the grid is built column by column, each column from row 0,
      with a flag that starts at 1 and flips after every cell and again after
      every column; a cell's square is light (White) when the flag is set.
      The board starts empty here, as the global board does in the source. */
  method InitCells() returns (board: seq<seq<Cell>>)
    ensures Holds(board, Blank())
    ensures forall i, j :: 0 <= i < 8 && 0 <= j < 8 ==> (board[i][j].color == White <==> (i + j) % 2 == 0)
    ensures forall i, j :: 0 <= i < 8 && 0 <= j < 8 ==>
      board[i][j].possibleMoves == [] && board[i][j].possibleKills == []
  {
    board := [];
    var flag := true;
    for i := 0 to 8
      invariant |board| == i && flag == (i % 2 == 0)
      invariant forall a :: 0 <= a < i ==> |board[a]| == 8
      invariant forall a, b :: 0 <= a < i && 0 <= b < 8 ==> NewCellAt(board[a][b], a, b)
    {
      var column: seq<Cell> := [];
      for j := 0 to 8
        invariant |column| == j && flag == ((i + j) % 2 == 0)
        invariant forall a, b :: 0 <= a < i && 0 <= b < 8 ==> NewCellAt(board[a][b], a, b)
        invariant forall b :: 0 <= b < j ==> NewCellAt(column[b], i, b)
      {
        var cell := new Cell(i, j, if flag then White else Black);
        column := column + [cell];
        flag := !flag;
      }
      board := board + [column];
      flag := !flag;
    }
  }

  /** The cell c is as init_cells leaves the cell (i, j). */
  ghost predicate NewCellAt(c: Cell, i: int, j: int)
    reads c
  {
    c.x == i && c.y == j && (c.color == White <==> (i + j) % 2 == 0) &&
    c.piece == Empty && c.pieceColor == Black && c.possibleMoves == [] && c.possibleKills == []
  }

  /** The place of the cell (x, y) among the 32 set_piece calls of fill_board:
      black's back rank, black's pawns, white's back rank, white's pawns, each
      from column 0; 32 for a cell fill_board does not touch. */
  function FillRank(x: int, y: int): (k: int)
    ensures 0 <= x < 8 && y in {0, 1, 6, 7} ==> 0 <= k < 32
    ensures !(y in {0, 1, 6, 7}) ==> k == 32
  {
    if y == 0 then x else if y == 1 then 8 + x else if y == 7 then 16 + x else if y == 6 then 24 + x else 32
  }

  /** The placement once the first k calls of fill_board have been made over p. */
  ghost function PartlyFilled(p: Position, k: int): Position {
    seq(8, x requires 0 <= x < 8 =>
      seq(8, y requires 0 <= y < 8 => if FillRank(x, y) < k then SetupSquare(p, x, y) else p[x][y]))
  }

  /** A cell of PartlyFilled(p, k) is set up when its call is among the first k. */
  lemma PartlyFilledAt(p: Position, k: int, i: int, j: int)
    requires 0 <= i < 8 && 0 <= j < 8
    ensures PartlyFilled(p, k)[i][j] == if FillRank(i, j) < k then SetupSquare(p, i, j) else p[i][j]
  {
  }

  /** No call made leaves p; all 32 made give the setup over p. */
  lemma PartlyFilledEnds(p: Position)
    ensures PartlyFilled(p, 0) == p
    ensures PartlyFilled(p, 32) == Filled(p)
  {
    forall a, b | 0 <= a < 8 && 0 <= b < 8
      ensures PartlyFilled(p, 0)[a][b] == p[a][b]
      ensures PartlyFilled(p, 32)[a][b] == Filled(p)[a][b]
    {
      PartlyFilledAt(p, 0, a, b);
      PartlyFilledAt(p, 32, a, b);
      assert At(Filled(p), Coord(a, b)) == SetupSquare(p, a, b);
    }
    Extensional(PartlyFilled(p, 0), p);
    Extensional(PartlyFilled(p, 32), Filled(p));
  }

  /** The k-th call of fill_board sets up its own cell and no other. */
  lemma PlaceStep(p: Position, k: int, x: int, y: int)
    requires 0 <= x < 8 && 0 <= y < 8 && FillRank(x, y) == k
    ensures PartlyFilled(p, k + 1) == Put(PartlyFilled(p, k), Coord(x, y), SetupSquare(p, x, y))
  {
    var q := Put(PartlyFilled(p, k), Coord(x, y), SetupSquare(p, x, y));
    forall a, b | 0 <= a < 8 && 0 <= b < 8
      ensures PartlyFilled(p, k + 1)[a][b] == q[a][b]
    {
      PartlyFilledAt(p, k, a, b);
      PartlyFilledAt(p, k + 1, a, b);
      assert q[a][b] == At(q, Coord(a, b));
    }
    Extensional(PartlyFilled(p, k + 1), q);
  }

  /** One call board[x][y].set_piece(piece, col) of fill_board, the k-th,
      after which k' = k + 1 calls are made. */
  method Place(board: seq<seq<Cell>>, ghost p: Position, ghost k: int, ghost k': int, x: int, y: int, piece: Tag, col: Color)
    requires Holds(board, PartlyFilled(p, k)) && 0 <= x < 8 && 0 <= y < 8
    requires FillRank(x, y) == k && k' == k + 1 && Square(piece, col) == SetupSquare(p, x, y)
    modifies Cells(board)`piece, Cells(board)`pieceColor
    ensures Holds(board, PartlyFilled(p, k'))
  {
    ghost var q := PartlyFilled(p, k);
    PlaceStep(p, k, x, y);
    board[x][y].SetPiece(piece, col);
    assert Holds(board, q[x := q[x][y := Square(piece, col)]]);
  }

  /** fill_board: the standard setup, black's pieces first, written over
      whatever the board holds; rows 2 to 5 are left as they are. */
  method FillBoard(board: seq<seq<Cell>>, ghost p: Position)
    requires Holds(board, p)
    modifies Cells(board)`piece, Cells(board)`pieceColor
    ensures Holds(board, Filled(p))
  {
    PartlyFilledEnds(p);
    // black
    BlackBackRank(board, p);
    BlackPawns(board, p);
    // white
    WhiteBackRank(board, p);
    WhitePawns(board, p);
  }

  /** Calls 1 to 8 of fill_board: black's back rank on row 0. */
  method BlackBackRank(board: seq<seq<Cell>>, ghost p: Position)
    requires Holds(board, PartlyFilled(p, 0))
    modifies Cells(board)`piece, Cells(board)`pieceColor
    ensures Holds(board, PartlyFilled(p, 8))
  {
    Place(board, p, 0, 1, 0, 0, Rook, Black);
    Place(board, p, 1, 2, 1, 0, Knight, Black);
    Place(board, p, 2, 3, 2, 0, Bishop, Black);
    Place(board, p, 3, 4, 3, 0, Queen, Black);
    Place(board, p, 4, 5, 4, 0, King, Black);
    Place(board, p, 5, 6, 5, 0, Bishop, Black);
    Place(board, p, 6, 7, 6, 0, Knight, Black);
    Place(board, p, 7, 8, 7, 0, Rook, Black);
  }

  /** Calls 9 to 16 of fill_board: black's pawns on row 1. */
  method BlackPawns(board: seq<seq<Cell>>, ghost p: Position)
    requires Holds(board, PartlyFilled(p, 8))
    modifies Cells(board)`piece, Cells(board)`pieceColor
    ensures Holds(board, PartlyFilled(p, 16))
  {
    Place(board, p, 8, 9, 0, 1, Pawn, Black);
    Place(board, p, 9, 10, 1, 1, Pawn, Black);
    Place(board, p, 10, 11, 2, 1, Pawn, Black);
    Place(board, p, 11, 12, 3, 1, Pawn, Black);
    Place(board, p, 12, 13, 4, 1, Pawn, Black);
    Place(board, p, 13, 14, 5, 1, Pawn, Black);
    Place(board, p, 14, 15, 6, 1, Pawn, Black);
    Place(board, p, 15, 16, 7, 1, Pawn, Black);
  }

  /** Calls 17 to 24 of fill_board: white's back rank on row 7. */
  method WhiteBackRank(board: seq<seq<Cell>>, ghost p: Position)
    requires Holds(board, PartlyFilled(p, 16))
    modifies Cells(board)`piece, Cells(board)`pieceColor
    ensures Holds(board, PartlyFilled(p, 24))
  {
    Place(board, p, 16, 17, 0, 7, Rook, White);
    Place(board, p, 17, 18, 1, 7, Knight, White);
    Place(board, p, 18, 19, 2, 7, Bishop, White);
    Place(board, p, 19, 20, 3, 7, Queen, White);
    Place(board, p, 20, 21, 4, 7, King, White);
    Place(board, p, 21, 22, 5, 7, Bishop, White);
    Place(board, p, 22, 23, 6, 7, Knight, White);
    Place(board, p, 23, 24, 7, 7, Rook, White);
  }

  /** Calls 25 to 32 of fill_board: white's pawns on row 6. */
  method WhitePawns(board: seq<seq<Cell>>, ghost p: Position)
    requires Holds(board, PartlyFilled(p, 24))
    modifies Cells(board)`piece, Cells(board)`pieceColor
    ensures Holds(board, PartlyFilled(p, 32))
  {
    Place(board, p, 24, 25, 0, 6, Pawn, White);
    Place(board, p, 25, 26, 1, 6, Pawn, White);
    Place(board, p, 26, 27, 2, 6, Pawn, White);
    Place(board, p, 27, 28, 3, 6, Pawn, White);
    Place(board, p, 28, 29, 4, 6, Pawn, White);
    Place(board, p, 29, 30, 5, 6, Pawn, White);
    Place(board, p, 30, 31, 6, 6, Pawn, White);
    Place(board, p, 31, 32, 7, 6, Pawn, White);
  }

  class Cell {
    const x: int
    const y: int
    /** The colour of the square itself: White for the light squares. */
    const color: Color
    var piece: Tag
    var pieceColor: Color
    /** The quiet destinations the last generator or filter left here. */
    var possibleMoves: seq<Coord>
    /** The capture destinations the last generator or filter left here. */
    var possibleKills: seq<Coord>

    /** A new cell holds no piece, has piece colour 0 and empty lists. */
    constructor (x: int, y: int, color: Color)
      ensures this.x == x && this.y == y && this.color == color
      ensures piece == Empty && pieceColor == Black
      ensures possibleMoves == [] && possibleKills == []
    {
      this.x := x;
      this.y := y;
      this.color := color;
      piece := Empty;
      pieceColor := Black;
      possibleMoves := [];
      possibleKills := [];
    }

    /** A copy of other, lists included. */
    constructor Clone(other: Cell)
      ensures x == other.x && y == other.y && color == other.color
      ensures piece == other.piece && pieceColor == other.pieceColor
      ensures possibleMoves == other.possibleMoves && possibleKills == other.possibleKills
    {
      x := other.x;
      y := other.y;
      color := other.color;
      piece := other.piece;
      pieceColor := other.pieceColor;
      possibleMoves := other.possibleMoves;
      possibleKills := other.possibleKills;
    }

    /** This cell is the one the board keeps at its coordinates. */
    ghost predicate InBoard(board: seq<seq<Cell>>) {
      IsGrid(board) && 0 <= x < 8 && 0 <= y < 8 && board[x][y] == this
    }

    /** Every cached destination is a square of the board, as the generators
        guarantee. */
    ghost predicate CachesOnBoard()
      reads this`possibleMoves, this`possibleKills
    {
      (forall t :: t in possibleMoves ==> OnBoard(t)) && (forall t :: t in possibleKills ==> OnBoard(t))
    }

    method SetPiece(piece: Tag, pieceColor: Color)
      modifies this`piece, this`pieceColor
      ensures this.piece == piece && this.pieceColor == pieceColor
    {
      this.piece := piece;
      this.pieceColor := pieceColor;
    }

    /** Recomputes both lists for the piece on this cell, clearing them when the
        cell is empty. */
    method CalcPossibleMoves(board: seq<seq<Cell>>, ghost p: Position)
      requires InBoard(board) && Holds(board, p)
      modifies this`possibleMoves, this`possibleKills
      ensures possibleMoves == PseudoMoves(p, Coord(x, y))
      ensures possibleKills == PseudoKills(p, Coord(x, y))
    {
      if piece != Empty {
        if piece == Pawn {
          PawnExec(board, p);
        } else if piece == Knight {
          KnightExec(board, p);
        } else if piece == Bishop {
          BishopExec(board, p);
        } else if piece == Rook {
          RookExec(board, p);
        } else if piece == Queen {
          QueenExec(board, p);
        } else if piece == King {
          KingExec(board, p);
        }
      } else {
        possibleKills := [];
        possibleMoves := [];
      }
    }

    /** remove_impossible_moves, storing the filtered lists on this cell. */
    method RemoveImpossibleMoves(board: seq<seq<Cell>>, ghost p: Position)
      requires InBoard(board) && Holds(board, p) && CachesOnBoard()
      requires forall t :: t in possibleMoves ==> t !in possibleKills
      modifies this`possibleMoves, this`possibleKills
      ensures possibleMoves == LegalOnly(p, Coord(x, y), old(possibleMoves))
      ensures possibleKills == LegalOnly(p, Coord(x, y), old(possibleKills))
    {
      ApartMeans(possibleMoves, possibleKills);
      var lists := FilterLists(board, p, Coord(x, y), possibleMoves, possibleKills);
      possibleMoves, possibleKills := lists.moves, lists.kills;
    }

    /** calc_moves: the piece's pseudo-legal lists, filtered by the self-check
        test. */
    method CalcMoves(board: seq<seq<Cell>>, ghost p: Position)
      requires InBoard(board) && Holds(board, p)
      modifies this`possibleMoves, this`possibleKills
      ensures possibleMoves == LegalMoves(p, Coord(x, y))
      ensures possibleKills == LegalKills(p, Coord(x, y))
    {
      CalcPossibleMoves(board, p);
      RemoveImpossibleMoves(board, p);
    }

    /** move: when (tx, ty) is among this cell's destinations, that cell takes
        this cell's tag and colour and this cell loses its tag, keeping its
        colour; otherwise nothing changes. The board is a parameter here where
        the source writes to its global board. */
    method Move(board: seq<seq<Cell>>, ghost p: Position, tx: int, ty: int)
      requires InBoard(board) && Holds(board, p) && OnBoard(Coord(tx, ty))
      modifies Cells(board)`piece, Cells(board)`pieceColor
      ensures Coord(tx, ty) in possibleMoves || Coord(tx, ty) in possibleKills ==>
        Holds(board, Play(p, Coord(x, y), Coord(tx, ty)))
      ensures !(Coord(tx, ty) in possibleMoves || Coord(tx, ty) in possibleKills) ==> Holds(board, p)
    {
      if Coord(tx, ty) in possibleMoves || Coord(tx, ty) in possibleKills {
        var target := board[tx][ty];
        target.piece := piece;
        target.pieceColor := pieceColor;
        piece := Empty;
      }
    }

    /** pawn_exec, storing its lists on this cell. */
    method PawnExec(board: seq<seq<Cell>>, ghost p: Position)
      requires InBoard(board) && Holds(board, p)
      modifies this`possibleMoves, this`possibleKills
      ensures possibleMoves == PawnQuiet(p, Coord(x, y))
      ensures possibleKills == PawnKills(p, Coord(x, y))
    {
      var lists := PawnLists(board, p, Coord(x, y));
      possibleMoves, possibleKills := lists.moves, lists.kills;
    }

    /** knight_exec, storing its lists on this cell. */
    method KnightExec(board: seq<seq<Cell>>, ghost p: Position)
      requires InBoard(board) && Holds(board, p)
      modifies this`possibleMoves, this`possibleKills
      ensures possibleMoves == StepQuiet(p, KnightTargets(Coord(x, y)))
      ensures possibleKills == StepKills(p, KnightTargets(Coord(x, y)), pieceColor)
    {
      var lists := KnightLists(board, p, Coord(x, y));
      possibleMoves, possibleKills := lists.moves, lists.kills;
    }

    /** king_exec, storing its lists on this cell. */
    method KingExec(board: seq<seq<Cell>>, ghost p: Position)
      requires InBoard(board) && Holds(board, p)
      modifies this`possibleMoves, this`possibleKills
      ensures possibleMoves == StepQuiet(p, KingTargets(Coord(x, y)))
      ensures possibleKills == StepKills(p, KingTargets(Coord(x, y)), pieceColor)
    {
      var lists := KingLists(board, p, Coord(x, y));
      possibleMoves, possibleKills := lists.moves, lists.kills;
    }

    /** bishop_exec: the four diagonal rays in the source's order. */
    method BishopExec(board: seq<seq<Cell>>, ghost p: Position)
      requires InBoard(board) && Holds(board, p)
      modifies this`possibleMoves, this`possibleKills
      ensures possibleMoves == BishopQuiet(p, Coord(x, y))
      ensures possibleKills == BishopKills(p, Coord(x, y))
    {
      var s := Coord(x, y);
      var r1 := RayLists(board, p, s, LeftUp);
      var r2 := RayLists(board, p, s, RightUp);
      var r3 := RayLists(board, p, s, RightDown);
      var r4 := RayLists(board, p, s, LeftDown);
      possibleMoves := r1.moves + r2.moves + r3.moves + r4.moves;
      possibleKills := r1.kills + r2.kills + r3.kills + r4.kills;
    }

    /** rook_exec: the four straight rays in the source's order. */
    method RookExec(board: seq<seq<Cell>>, ghost p: Position)
      requires InBoard(board) && Holds(board, p)
      modifies this`possibleMoves, this`possibleKills
      ensures possibleMoves == RookQuiet(p, Coord(x, y))
      ensures possibleKills == RookKills(p, Coord(x, y))
    {
      var s := Coord(x, y);
      var r1 := RayLists(board, p, s, Up);
      var r2 := RayLists(board, p, s, Right);
      var r3 := RayLists(board, p, s, Down);
      var r4 := RayLists(board, p, s, Left);
      possibleMoves := r1.moves + r2.moves + r3.moves + r4.moves;
      possibleKills := r1.kills + r2.kills + r3.kills + r4.kills;
    }

    /** queen_exec: the bishop's four rays, then the rook's four. */
    method QueenExec(board: seq<seq<Cell>>, ghost p: Position)
      requires InBoard(board) && Holds(board, p)
      modifies this`possibleMoves, this`possibleKills
      ensures possibleMoves == QueenQuiet(p, Coord(x, y))
      ensures possibleKills == QueenKills(p, Coord(x, y))
    {
      var s := Coord(x, y);
      var r1 := RayLists(board, p, s, LeftUp);
      var r2 := RayLists(board, p, s, RightUp);
      var r3 := RayLists(board, p, s, RightDown);
      var r4 := RayLists(board, p, s, LeftDown);
      var r5 := RayLists(board, p, s, Up);
      var r6 := RayLists(board, p, s, Right);
      var r7 := RayLists(board, p, s, Down);
      var r8 := RayLists(board, p, s, Left);
      possibleMoves := r1.moves + r2.moves + r3.moves + r4.moves + (r5.moves + r6.moves + r7.moves + r8.moves);
      possibleKills := r1.kills + r2.kills + r3.kills + r4.kills + (r5.kills + r6.kills + r7.kills + r8.kills);
    }
  }
}
