/** The board-wide questions of utilities.py, asked of the same grid of cells
    as chess.py. Each one visits the cells column by column, recomputes the
    cached lists of the cells it is interested in, and stops at the first
    cell that settles the answer. Only cached lists change; the placement of
    the pieces is kept. utilities.get_king_pos is the same search as
    chess.get_king_pos and is Chess.GetKingPos here. */
module Utilities {
  import opened Board
  import opened MoveRules
  import opened CheckRules
  import opened Chess

  // ------------------------------------------------------------- is_check

  /** is_check: like isCheck, but only cells that hold a piece of the other
      colour recompute their lists and are asked about the king's square. */
  method IsCheck(board: seq<seq<Cell>>, ghost p: Position, col: Color) returns (b: bool)
    requires Holds(board, p)
    modifies Cells(board)`possibleMoves, Cells(board)`possibleKills
    ensures Holds(board, p)
    ensures b <==> (KingSquare(p, col).Some? &&
      exists a :: HoldsEnemy(p, a, col) && KingSquare(p, col).value in PseudoKills(p, a))
    ensures b == InCheck(p, col)
    ensures forall x, y {:trigger CacheAt(board, x, y)} :: 0 <= x < 8 && 0 <= y < 8 ==>
      CacheAt(board, x, y) == old(CacheAt(board, x, y)) ||
      (HoldsEnemy(p, Coord(x, y), col) && CacheAt(board, x, y) == Lists(PseudoMoves(p, Coord(x, y)), PseudoKills(p, Coord(x, y))))
    ensures !b ==> forall x, y {:trigger CacheAt(board, x, y)} :: 0 <= x < 8 && 0 <= y < 8 && HoldsEnemy(p, Coord(x, y), col) ==>
      CacheAt(board, x, y) == Lists(PseudoMoves(p, Coord(x, y)), PseudoKills(p, Coord(x, y)))
  {
    InCheckByPieces(p, col);
    var i := 0;
    while i < 8
      invariant 0 <= i <= 8
      invariant Holds(board, p)
      invariant NoCheckerBefore(p, col, i, 0)
      invariant forall x, y {:trigger CacheAt(board, x, y)} :: 0 <= x < 8 && 0 <= y < 8 ==>
        if x < i && HoldsEnemy(p, Coord(x, y), col)
        then CacheAt(board, x, y) == Lists(PseudoMoves(p, Coord(x, y)), PseudoKills(p, Coord(x, y)))
        else CacheAt(board, x, y) == old(CacheAt(board, x, y))
    {
      var j := 0;
      while j < 8
        invariant 0 <= j <= 8
        invariant Holds(board, p)
        invariant NoCheckerBefore(p, col, i, j)
        invariant forall x, y {:trigger CacheAt(board, x, y)} :: 0 <= x < 8 && 0 <= y < 8 ==>
          if (x < i || (x == i && y < j)) && HoldsEnemy(p, Coord(x, y), col)
          then CacheAt(board, x, y) == Lists(PseudoMoves(p, Coord(x, y)), PseudoKills(p, Coord(x, y)))
          else CacheAt(board, x, y) == old(CacheAt(board, x, y))
      {
        var cell := board[i][j];
        if cell.pieceColor != col && cell.piece != Empty {
          OtherCells(board, i, j);
          cell.CalcPossibleMoves(board, p);
          forall x, y | 0 <= x < 8 && 0 <= y < 8
            ensures if (x < i || (x == i && y < j + 1)) && HoldsEnemy(p, Coord(x, y), col)
              then CacheAt(board, x, y) == Lists(PseudoMoves(p, Coord(x, y)), PseudoKills(p, Coord(x, y)))
              else CacheAt(board, x, y) == old(CacheAt(board, x, y))
          {
            if x != i || y != j {
              assert board[x][y] != cell;
            }
          }
          assert cell.possibleKills == PseudoKills(p, Coord(i, j));
          var king := GetKingPos(board, p, col);
          if king.Some? && king.value in cell.possibleKills {
            assert Checks(p, Coord(i, j), col);
            return true;
          }
        } else {
          assert PseudoKills(p, Coord(i, j)) == [] || At(p, Coord(i, j)).color == col;
        }
        ScanStep(p, col, i, j);
        j := j + 1;
      }
      i := i + 1;
    }
    ScanEnd(p, col);
    return false;
  }

  // -------------------------------------------------------- is_threatened

  /** No piece of colour col among the cells visited before (i, j) has t among
      its quiet destinations. */
  ghost predicate NoThreatBefore(p: Position, col: Color, t: Coord, i: int, j: int) {
    forall x, y :: 0 <= x < 8 && 0 <= y < 8 && (x < i || (x == i && y < j)) ==>
      !(HoldsFriend(p, Coord(x, y), col) && t in PseudoMoves(p, Coord(x, y)))
  }

  lemma ThreatScanStep(p: Position, col: Color, t: Coord, i: int, j: int)
    requires 0 <= i < 8 && 0 <= j < 8
    requires NoThreatBefore(p, col, t, i, j)
    requires !(HoldsFriend(p, Coord(i, j), col) && t in PseudoMoves(p, Coord(i, j)))
    ensures NoThreatBefore(p, col, t, i, j + 1)
  {
  }

  lemma ThreatScanEnd(p: Position, col: Color, t: Coord)
    requires NoThreatBefore(p, col, t, 8, 0)
    ensures !Threatened(p, col, t)
  {
    forall a | OnBoard(a)
      ensures !(HoldsFriend(p, a, col) && t in PseudoMoves(p, a))
    {
      assert a == Coord(a.x, a.y);
    }
  }

  /** is_threatened: the cells holding a piece of colour col recompute their
      lists, and the answer is yes as soon as one lists coords as a quiet
      destination. Captures are not consulted. */
  method IsThreatened(board: seq<seq<Cell>>, ghost p: Position, col: Color, coords: Coord) returns (b: bool)
    requires Holds(board, p)
    modifies Cells(board)`possibleMoves, Cells(board)`possibleKills
    ensures Holds(board, p)
    ensures b == Threatened(p, col, coords)
    ensures forall x, y {:trigger CacheAt(board, x, y)} :: 0 <= x < 8 && 0 <= y < 8 ==>
      CacheAt(board, x, y) == old(CacheAt(board, x, y)) ||
      (HoldsFriend(p, Coord(x, y), col) && CacheAt(board, x, y) == Lists(PseudoMoves(p, Coord(x, y)), PseudoKills(p, Coord(x, y))))
    ensures !b ==> forall x, y {:trigger CacheAt(board, x, y)} :: 0 <= x < 8 && 0 <= y < 8 && HoldsFriend(p, Coord(x, y), col) ==>
      CacheAt(board, x, y) == Lists(PseudoMoves(p, Coord(x, y)), PseudoKills(p, Coord(x, y)))
  {
    var i := 0;
    while i < 8
      invariant 0 <= i <= 8
      invariant Holds(board, p)
      invariant NoThreatBefore(p, col, coords, i, 0)
      invariant forall x, y {:trigger CacheAt(board, x, y)} :: 0 <= x < 8 && 0 <= y < 8 ==>
        if x < i && HoldsFriend(p, Coord(x, y), col)
        then CacheAt(board, x, y) == Lists(PseudoMoves(p, Coord(x, y)), PseudoKills(p, Coord(x, y)))
        else CacheAt(board, x, y) == old(CacheAt(board, x, y))
    {
      var j := 0;
      while j < 8
        invariant 0 <= j <= 8
        invariant Holds(board, p)
        invariant NoThreatBefore(p, col, coords, i, j)
        invariant forall x, y {:trigger CacheAt(board, x, y)} :: 0 <= x < 8 && 0 <= y < 8 ==>
          if (x < i || (x == i && y < j)) && HoldsFriend(p, Coord(x, y), col)
          then CacheAt(board, x, y) == Lists(PseudoMoves(p, Coord(x, y)), PseudoKills(p, Coord(x, y)))
          else CacheAt(board, x, y) == old(CacheAt(board, x, y))
      {
        var cell := board[i][j];
        if cell.pieceColor == col && cell.piece != Empty {
          OtherCells(board, i, j);
          cell.CalcPossibleMoves(board, p);
          forall x, y | 0 <= x < 8 && 0 <= y < 8
            ensures if (x < i || (x == i && y < j + 1)) && HoldsFriend(p, Coord(x, y), col)
              then CacheAt(board, x, y) == Lists(PseudoMoves(p, Coord(x, y)), PseudoKills(p, Coord(x, y)))
              else CacheAt(board, x, y) == old(CacheAt(board, x, y))
          {
            if x != i || y != j {
              assert board[x][y] != cell;
            }
          }
          if coords in cell.possibleMoves {
            assert HoldsFriend(p, Coord(i, j), col) && coords in PseudoMoves(p, Coord(i, j));
            return true;
          }
        }
        ThreatScanStep(p, col, coords, i, j);
        j := j + 1;
      }
      i := i + 1;
    }
    ThreatScanEnd(p, col, coords);
    return false;
  }

  // ------------------------------------------------------- calc_checkmate

  /** Every piece of colour col among the cells visited before (i, j) has
      empty legal lists. */
  ghost predicate StuckBefore(p: Position, col: Color, i: int, j: int) {
    forall x, y :: 0 <= x < 8 && 0 <= y < 8 && (x < i || (x == i && y < j)) && HoldsFriend(p, Coord(x, y), col)
      ==> LegalMoves(p, Coord(x, y)) == [] && LegalKills(p, Coord(x, y)) == []
  }

  lemma StuckScanStep(p: Position, col: Color, i: int, j: int)
    requires 0 <= i < 8 && 0 <= j < 8
    requires StuckBefore(p, col, i, j)
    requires HoldsFriend(p, Coord(i, j), col) ==>
      LegalMoves(p, Coord(i, j)) == [] && LegalKills(p, Coord(i, j)) == []
    ensures StuckBefore(p, col, i, j + 1)
  {
  }

  lemma StuckScanEnd(p: Position, col: Color)
    requires StuckBefore(p, col, 8, 0)
    ensures NoLegalMove(p, col)
  {
    forall a | HoldsFriend(p, a, col)
      ensures LegalMoves(p, a) == [] && LegalKills(p, a) == []
    {
      assert a == Coord(a.x, a.y);
    }
  }

  /** calc_checkmate: the cells holding a piece of colour col compute their
      legal lists, and the answer is no as soon as one of them is not empty.
      Check is never consulted, so a stalemated colour, or one with no piece
      left, also gets yes. */
  method CalcCheckmate(board: seq<seq<Cell>>, ghost p: Position, col: Color) returns (b: bool)
    requires Holds(board, p)
    modifies Cells(board)`possibleMoves, Cells(board)`possibleKills
    ensures Holds(board, p)
    ensures b == NoLegalMove(p, col)
    ensures forall x, y {:trigger CacheAt(board, x, y)} :: 0 <= x < 8 && 0 <= y < 8 ==>
      CacheAt(board, x, y) == old(CacheAt(board, x, y)) ||
      (HoldsFriend(p, Coord(x, y), col) &&
       CacheAt(board, x, y) == Lists(LegalMoves(p, Coord(x, y)), LegalKills(p, Coord(x, y))))
    ensures b ==> forall x, y {:trigger CacheAt(board, x, y)} :: 0 <= x < 8 && 0 <= y < 8 && HoldsFriend(p, Coord(x, y), col) ==>
      CacheAt(board, x, y) == Lists(LegalMoves(p, Coord(x, y)), LegalKills(p, Coord(x, y)))
  {
    var i := 0;
    while i < 8
      invariant 0 <= i <= 8
      invariant Holds(board, p)
      invariant StuckBefore(p, col, i, 0)
      invariant forall x, y {:trigger CacheAt(board, x, y)} :: 0 <= x < 8 && 0 <= y < 8 ==>
        if x < i && HoldsFriend(p, Coord(x, y), col)
        then CacheAt(board, x, y) == Lists(LegalMoves(p, Coord(x, y)), LegalKills(p, Coord(x, y)))
        else CacheAt(board, x, y) == old(CacheAt(board, x, y))
    {
      var j := 0;
      while j < 8
        invariant 0 <= j <= 8
        invariant Holds(board, p)
        invariant StuckBefore(p, col, i, j)
        invariant forall x, y {:trigger CacheAt(board, x, y)} :: 0 <= x < 8 && 0 <= y < 8 ==>
          if (x < i || (x == i && y < j)) && HoldsFriend(p, Coord(x, y), col)
          then CacheAt(board, x, y) == Lists(LegalMoves(p, Coord(x, y)), LegalKills(p, Coord(x, y)))
          else CacheAt(board, x, y) == old(CacheAt(board, x, y))
      {
        var cell := board[i][j];
        if cell.piece != Empty && cell.pieceColor == col {
          OtherCells(board, i, j);
          cell.CalcMoves(board, p);
          forall x, y | 0 <= x < 8 && 0 <= y < 8
            ensures if (x < i || (x == i && y < j + 1)) && HoldsFriend(p, Coord(x, y), col)
              then CacheAt(board, x, y) == Lists(LegalMoves(p, Coord(x, y)), LegalKills(p, Coord(x, y)))
              else CacheAt(board, x, y) == old(CacheAt(board, x, y))
          {
            if x != i || y != j {
              assert board[x][y] != cell;
            }
          }
          if cell.possibleMoves != [] || cell.possibleKills != [] {
            assert HoldsFriend(p, Coord(i, j), col);
            return false;
          }
        }
        StuckScanStep(p, col, i, j);
        j := j + 1;
      }
      i := i + 1;
    }
    StuckScanEnd(p, col);
    return true;
  }
}
