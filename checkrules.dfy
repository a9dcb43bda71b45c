/** Check, legality and the board-wide questions, as functions of a placement:
    where a colour's king is, whether it is attacked, which pseudo-legal
    destinations survive the self-check test, and whether a colour can move. */
module CheckRules {
  import opened Board
  import opened MoveRules

  /** a is visited before b when the board is scanned column by column, each
      column from row 0 down. */
  predicate Before(a: Coord, b: Coord) {
    a.x < b.x || (a.x == b.x && a.y < b.y)
  }

  predicate IsKingOf(p: Position, c: Coord, col: Color) {
    OnBoard(c) && At(p, c) == Square(King, col)
  }

  /** The first king of colour col met by the scan from (x, y) on. */
  function KingFrom(p: Position, col: Color, x: int, y: int): (r: Option<Coord>)
    requires 0 <= x <= 8 && 0 <= y <= 8
    ensures r.Some? ==> IsKingOf(p, r.value, col) && !Before(r.value, Coord(x, y))
    ensures forall c :: OnBoard(c) && !Before(c, Coord(x, y)) && (r.Some? ==> Before(c, r.value)) ==>
      !IsKingOf(p, c, col)
    decreases 8 - x, 8 - y
  {
    if x == 8 then None
    else if y == 8 then KingFrom(p, col, x + 1, 0)
    else if p[x][y] == Square(King, col) then Some(Coord(x, y))
    else KingFrom(p, col, x, y + 1)
  }

  /** What get_king_pos answers: the first king of colour col in scan order,
      or None. */
  function KingSquare(p: Position, col: Color): Option<Coord> {
    KingFrom(p, col, 0, 0)
  }

  /** KingSquare names a king of colour col exactly when no king of that colour
      comes before it, and is None exactly when there is no such king. */
  lemma KingSquareIsFirstKing(p: Position, col: Color, k: Coord)
    ensures KingSquare(p, col) == Some(k) <==>
      IsKingOf(p, k, col) && forall c :: OnBoard(c) && Before(c, k) ==> !IsKingOf(p, c, col)
    ensures KingSquare(p, col) == None <==> forall c :: OnBoard(c) ==> !IsKingOf(p, c, col)
  {
    var r := KingSquare(p, col);
    if IsKingOf(p, k, col) && forall c :: OnBoard(c) && Before(c, k) ==> !IsKingOf(p, c, col) {
      assert !Before(k, Coord(0, 0));
      assert r.Some?;
      assert !Before(r.value, k);
      assert !Before(k, r.value);
    }
  }

  /** The cell a, whose colour is not col, lists col's king square among its
      captures. */
  ghost predicate Checks(p: Position, a: Coord, col: Color)
    requires OnBoard(a)
  {
    At(p, a).color != col && KingSquare(p, col).Some? && KingSquare(p, col).value in PseudoKills(p, a)
  }

  /** isCheck: col's king square exists and is in the capture list of some cell
      whose colour is not col. An emptied cell keeps a colour, is visited, and
      contributes nothing. */
  ghost predicate InCheck(p: Position, col: Color) {
    KingSquare(p, col).Some? && exists a :: OnBoard(a) && Checks(p, a, col)
  }

  /** The scan of isCheck has passed every cell before (i, j) without meeting
      a checker. */
  ghost predicate NoCheckerBefore(p: Position, col: Color, i: int, j: int) {
    forall x, y :: 0 <= x < 8 && 0 <= y < 8 && (x < i || (x == i && y < j)) ==> !Checks(p, Coord(x, y), col)
  }

  /** The scan moves past a cell that does not check. */
  lemma ScanStep(p: Position, col: Color, i: int, j: int)
    requires 0 <= i < 8 && 0 <= j < 8
    requires NoCheckerBefore(p, col, i, j) && !Checks(p, Coord(i, j), col)
    ensures NoCheckerBefore(p, col, i, j + 1)
  {
  }

  /** A scan that passed every cell found the truth: col is not in check. */
  lemma ScanEnd(p: Position, col: Color)
    requires NoCheckerBefore(p, col, 8, 0)
    ensures !InCheck(p, col)
  {
    forall a | OnBoard(a)
      ensures !Checks(p, a, col)
    {
      assert a == Coord(a.x, a.y);
    }
  }

  /** Only pieces check: the test that skips empty cells gives the same answer. */
  lemma InCheckByPieces(p: Position, col: Color)
    ensures InCheck(p, col) <==>
      KingSquare(p, col).Some? &&
      exists a :: HoldsEnemy(p, a, col) && KingSquare(p, col).value in PseudoKills(p, a)
  {
  }

  /** There is no check without a king of that colour, and none without a piece
      of the other colour. */
  lemma NoCheckWithoutKingOrEnemy(p: Position, col: Color)
    requires (forall c :: OnBoard(c) ==> !IsKingOf(p, c, col)) ||
             (forall a :: OnBoard(a) ==> !HoldsEnemy(p, a, col))
    ensures !InCheck(p, col)
  {
    KingSquareIsFirstKing(p, col, Coord(0, 0));
  }

  /** A checking piece attacks a king of colour col: the king's square holds a
      king of col and the checker is a piece of the other colour. */
  lemma CheckIsAttackOnKing(p: Position, col: Color)
    requires InCheck(p, col)
    ensures exists a, k :: HoldsEnemy(p, a, col) && IsKingOf(p, k, col) && k in PseudoKills(p, a)
  {
    var k := KingSquare(p, col).value;
    var a :| OnBoard(a) && Checks(p, a, col);
    assert HoldsEnemy(p, a, col) && IsKingOf(p, k, col) && k in PseudoKills(p, a);
  }

  // ------------------------------------------------------------ legality

  /** The self-check test of remove_impossible_moves: t is a square of the
      board and, after the piece on s is carried to t, its colour's king is
      not in check. */
  ghost predicate KeepsKingSafe(p: Position, s: Coord, t: Coord)
    requires OnBoard(s)
  {
    OnBoard(t) && !InCheck(Play(p, s, t), At(p, s).color)
  }

  /** The candidates of ts that pass the self-check test, in order. */
  ghost function LegalOnly(p: Position, s: Coord, ts: seq<Coord>): seq<Coord>
    requires OnBoard(s)
  {
    if ts == [] then []
    else LegalOnly(p, s, ts[..|ts| - 1]) + (if KeepsKingSafe(p, s, ts[|ts| - 1]) then [ts[|ts| - 1]] else [])
  }

  /** The filter keeps exactly the candidates that pass, each no more often
      than it was offered. */
  lemma {:induction false} LegalOnlyMembers(p: Position, s: Coord, ts: seq<Coord>)
    requires OnBoard(s)
    ensures forall t :: t in LegalOnly(p, s, ts) <==> t in ts && KeepsKingSafe(p, s, t)
    ensures multiset(LegalOnly(p, s, ts)) <= multiset(ts)
    decreases |ts|
  {
    if ts != [] {
      var front, last := ts[..|ts| - 1], ts[|ts| - 1];
      assert ts == front + [last];
      LegalOnlyMembers(p, s, front);
    }
  }

  /** LegalOnlyMembers for one square. */
  lemma LegalOnlyAt(p: Position, s: Coord, ts: seq<Coord>, t: Coord)
    requires OnBoard(s)
    ensures t in LegalOnly(p, s, ts) <==> t in ts && KeepsKingSafe(p, s, t)
  {
    LegalOnlyMembers(p, s, ts);
  }

  /** Filtering a concatenation filters each part. */
  lemma {:induction false} LegalOnlyAppend(p: Position, s: Coord, a: seq<Coord>, b: seq<Coord>)
    requires OnBoard(s)
    ensures LegalOnly(p, s, a + b) == LegalOnly(p, s, a) + LegalOnly(p, s, b)
    decreases |b|
  {
    if b == [] {
      assert a + b == a;
    } else {
      var front, last := b[..|b| - 1], b[|b| - 1];
      var keep := if KeepsKingSafe(p, s, last) then [last] else [];
      assert (a + b)[..|a + b| - 1] == a + front;
      assert (a + b)[|a + b| - 1] == last;
      LegalOnlyAppend(p, s, a, front);
      calc {
        LegalOnly(p, s, a + b);
        LegalOnly(p, s, a + front) + keep;
        LegalOnly(p, s, a) + LegalOnly(p, s, front) + keep;
        LegalOnly(p, s, a) + LegalOnly(p, s, b);
      }
    }
  }

  /** list.remove: the first occurrence of t is dropped, the rest keep their
      order. */
  function Remove(ts: seq<Coord>, t: Coord): (r: seq<Coord>)
    requires t in ts
    ensures multiset(r) == multiset(ts) - multiset{t}
  {
    assert ts == [ts[0]] + ts[1..];
    if ts[0] == t then ts[1..] else [ts[0]] + Remove(ts[1..], t)
  }

  /** When t does not occur in a, the first t of a + [t] + b is the one
      between them. */
  lemma {:induction false} RemoveAfter(a: seq<Coord>, t: Coord, b: seq<Coord>)
    requires t !in a
    ensures Remove(a + [t] + b, t) == a + b
    decreases |a|
  {
    if a != [] {
      assert (a + [t] + b)[1..] == a[1..] + [t] + b;
      RemoveAfter(a[1..], t, b);
    }
  }

  /** One round of remove_impossible_moves over the candidates ts, the first
      n of them already decided: a candidate that passes is kept, one that
      fails is the first occurrence of its value in the list and is removed. */
  lemma FilterStep(p: Position, s: Coord, ts: seq<Coord>, n: nat)
    requires OnBoard(s) && n < |ts|
    ensures KeepsKingSafe(p, s, ts[n]) ==>
      LegalOnly(p, s, ts[..n + 1]) + ts[n + 1..] == LegalOnly(p, s, ts[..n]) + ts[n..]
    ensures !KeepsKingSafe(p, s, ts[n]) ==>
      ts[n] in LegalOnly(p, s, ts[..n]) + ts[n..] &&
      LegalOnly(p, s, ts[..n + 1]) + ts[n + 1..] == Remove(LegalOnly(p, s, ts[..n]) + ts[n..], ts[n])
  {
    var done, t, rest := LegalOnly(p, s, ts[..n]), ts[n], ts[n + 1..];
    assert ts[..n + 1][..n] == ts[..n];
    assert ts[n..] == [t] + rest;
    if KeepsKingSafe(p, s, t) {
      assert LegalOnly(p, s, ts[..n + 1]) == done + [t];
      assert done + [t] + rest == done + ([t] + rest);
    } else {
      assert LegalOnly(p, s, ts[..n + 1]) == done;
      LegalOnlyMembers(p, s, ts[..n]);
      RemoveAfter(done, t, rest);
      assert done + [t] + rest == done + ts[n..];
    }
  }

  /** No square of moves is in kills. */
  predicate Apart(moves: seq<Coord>, kills: seq<Coord>)
    decreases |moves|
  {
    moves == [] || (moves[0] !in kills && Apart(moves[1..], kills))
  }

  /** A square of kills is not in moves. */
  lemma {:induction false} ApartAt(moves: seq<Coord>, kills: seq<Coord>, t: Coord)
    requires Apart(moves, kills) && t in kills
    ensures t !in moves
    decreases |moves|
  {
    if moves != [] {
      assert moves == [moves[0]] + moves[1..];
      ApartAt(moves[1..], kills, t);
    }
  }

  lemma {:induction false} ApartMeans(moves: seq<Coord>, kills: seq<Coord>)
    ensures Apart(moves, kills) <==> forall t :: t in moves ==> t !in kills
    decreases |moves|
  {
    if moves != [] {
      assert moves == [moves[0]] + moves[1..];
      ApartMeans(moves[1..], kills);
    }
  }

  /** The two lists of remove_impossible_moves once the first n candidates
      of moves + kills have been decided: the decided part of each list is
      filtered, the rest is as it was. */
  ghost function FilterProgress(p: Position, s: Coord, moves: seq<Coord>, kills: seq<Coord>, n: nat): Lists
    requires OnBoard(s) && n <= |moves| + |kills|
  {
    if n <= |moves| then Lists(LegalOnly(p, s, moves[..n]) + moves[n..], kills)
    else Lists(LegalOnly(p, s, moves), LegalOnly(p, s, kills[..n - |moves|]) + kills[n - |moves|..])
  }

  /** Before any candidate is decided the lists are untouched; once all are,
      each list is filtered. */
  lemma FilterEnds(p: Position, s: Coord, moves: seq<Coord>, kills: seq<Coord>)
    requires OnBoard(s)
    ensures FilterProgress(p, s, moves, kills, 0) == Lists(moves, kills)
    ensures FilterProgress(p, s, moves, kills, |moves| + |kills|) == Lists(LegalOnly(p, s, moves), LegalOnly(p, s, kills))
  {
    assert moves[..0] == [] && moves[0..] == moves;
    assert kills[..|kills|] == kills && kills[|kills|..] == [];
    if kills == [] {
      assert moves[..|moves|] == moves && moves[|moves|..] == [];
    }
  }

  /** One round of remove_impossible_moves on the lists l for the candidate
      t: a candidate that fails the test is removed from the quiet list when it
      is there and from the capture list otherwise. (A failed candidate in
      neither list would make list.remove raise; for disjoint lists this does
      not happen, see RoundsFound.) */
  ghost function Round(p: Position, s: Coord, l: Lists, t: Coord): Lists
    requires OnBoard(s)
  {
    if KeepsKingSafe(p, s, t) then l
    else if t in l.moves then Lists(Remove(l.moves, t), l.kills)
    else if t in l.kills then Lists(l.moves, Remove(l.kills, t))
    else l
  }

  /** The lists after the first n rounds over the candidates moves + kills. */
  ghost function Rounds(p: Position, s: Coord, moves: seq<Coord>, kills: seq<Coord>, n: nat): Lists
    requires OnBoard(s) && n <= |moves| + |kills|
    decreases n
  {
    if n == 0 then Lists(moves, kills)
    else Round(p, s, Rounds(p, s, moves, kills, n - 1), (moves + kills)[n - 1])
  }

  lemma RoundsNext(p: Position, s: Coord, moves: seq<Coord>, kills: seq<Coord>, n: nat)
    requires OnBoard(s) && 0 < n <= |moves| + |kills|
    ensures Rounds(p, s, moves, kills, n) == Round(p, s, Rounds(p, s, moves, kills, n - 1), (moves + kills)[n - 1])
  {
  }

  /** A round on a quiet candidate, the n-th of moves: a failed one is in the
      quiet list still in progress. */
  lemma FilterQuietRound(p: Position, s: Coord, moves: seq<Coord>, kills: seq<Coord>, n: nat)
    requires OnBoard(s) && n < |moves|
    ensures var now := FilterProgress(p, s, moves, kills, n);
      (KeepsKingSafe(p, s, moves[n]) || moves[n] in now.moves) &&
      FilterProgress(p, s, moves, kills, n + 1) == Round(p, s, now, moves[n])
  {
    FilterStep(p, s, moves, n);
    if n + 1 == |moves| {
      assert kills[..0] == [] && kills[0..] == kills;
      assert LegalOnly(p, s, kills[..0]) + kills[0..] == kills;
    }
  }

  /** Once every quiet candidate is decided, the quiet list is filtered and
      only the capture list is in progress. */
  lemma FilterCapturePhase(p: Position, s: Coord, moves: seq<Coord>, kills: seq<Coord>, m: nat)
    requires OnBoard(s) && m <= |kills|
    ensures FilterProgress(p, s, moves, kills, |moves| + m) ==
      Lists(LegalOnly(p, s, moves), LegalOnly(p, s, kills[..m]) + kills[m..])
  {
    if m == 0 {
      assert moves[..|moves|] == moves && moves[|moves|..] == [];
      assert kills[..0] == [] && kills[0..] == kills;
    }
  }

  /** A round on a capture candidate, the m-th of kills, once every quiet
      candidate is decided. A capture is never in the quiet list, so a failed
      one is in the capture list in progress and is removed from there. */
  lemma FilterCaptureRound(p: Position, s: Coord, moves: seq<Coord>, kills: seq<Coord>, m: nat)
    requires OnBoard(s) && m < |kills|
    requires Apart(moves, kills)
    ensures var now := FilterProgress(p, s, moves, kills, |moves| + m);
      (KeepsKingSafe(p, s, kills[m]) || kills[m] in now.kills) &&
      FilterProgress(p, s, moves, kills, |moves| + m + 1) == Round(p, s, now, kills[m])
  {
    var t := kills[m];
    FilterCapturePhase(p, s, moves, kills, m);
    FilterCapturePhase(p, s, moves, kills, m + 1);
    FilterStep(p, s, kills, m);
    ApartAt(moves, kills, t);
    LegalOnlyAt(p, s, moves, t);
  }

  /** One round of remove_impossible_moves over disjoint lists, the n-th
      candidate of moves + kills: the filter moves one candidate further, and
      a failed candidate is in one of the lists in progress. */
  lemma RoundStep(p: Position, s: Coord, moves: seq<Coord>, kills: seq<Coord>, n: nat)
    requires OnBoard(s) && n < |moves| + |kills| && Apart(moves, kills)
    ensures var now, t := FilterProgress(p, s, moves, kills, n), (moves + kills)[n];
      (KeepsKingSafe(p, s, t) || t in now.moves || t in now.kills) &&
      FilterProgress(p, s, moves, kills, n + 1) == Round(p, s, now, t)
  {
    if n < |moves| {
      assert (moves + kills)[n] == moves[n];
      FilterQuietRound(p, s, moves, kills, n);
    } else {
      var m := n - |moves|;
      assert (moves + kills)[n] == kills[m];
      FilterCaptureRound(p, s, moves, kills, m);
    }
  }

  /** RoundStep, stated for the round that ends at n. */
  lemma RoundStepTo(p: Position, s: Coord, moves: seq<Coord>, kills: seq<Coord>, n: nat)
    requires OnBoard(s) && 0 < n <= |moves| + |kills| && Apart(moves, kills)
    ensures FilterProgress(p, s, moves, kills, n)
         == Round(p, s, FilterProgress(p, s, moves, kills, n - 1), (moves + kills)[n - 1])
  {
    RoundStep(p, s, moves, kills, n - 1);
  }

  /** For disjoint lists, n rounds leave the decided part of each list
      filtered and the rest as it was. */
  lemma {:induction false} RoundsFilter(p: Position, s: Coord, moves: seq<Coord>, kills: seq<Coord>, n: nat)
    requires OnBoard(s) && n <= |moves| + |kills| && Apart(moves, kills)
    ensures Rounds(p, s, moves, kills, n) == FilterProgress(p, s, moves, kills, n)
    decreases n
  {
    if n == 0 {
      FilterEnds(p, s, moves, kills);
    } else {
      RoundsFilter(p, s, moves, kills, n - 1);
      RoundStepTo(p, s, moves, kills, n);
      RoundsNext(p, s, moves, kills, n);
    }
  }

  /** After every round over disjoint lists, each list keeps, in order,
      exactly its candidates that pass the test. */
  lemma RoundsDone(p: Position, s: Coord, moves: seq<Coord>, kills: seq<Coord>, n: nat)
    requires OnBoard(s) && Apart(moves, kills) && n == |moves| + |kills|
    ensures Rounds(p, s, moves, kills, n) == Lists(LegalOnly(p, s, moves), LegalOnly(p, s, kills))
  {
    RoundsFilter(p, s, moves, kills, n);
    FilterEnds(p, s, moves, kills);
  }

  /** For disjoint lists, a candidate that fails the test is, when its round
      comes, in one of the lists: list.remove always finds it. */
  lemma RoundsFound(p: Position, s: Coord, moves: seq<Coord>, kills: seq<Coord>, n: nat)
    requires OnBoard(s) && n < |moves| + |kills| && Apart(moves, kills)
    ensures var now, t := Rounds(p, s, moves, kills, n), (moves + kills)[n];
      KeepsKingSafe(p, s, t) || t in now.moves || t in now.kills
  {
    RoundsFilter(p, s, moves, kills, n);
    RoundStep(p, s, moves, kills, n);
  }

  /** calc_moves' quiet list for the piece on s. */
  ghost function LegalMoves(p: Position, s: Coord): seq<Coord>
    requires OnBoard(s)
  {
    LegalOnly(p, s, PseudoMoves(p, s))
  }

  /** calc_moves' capture list for the piece on s. */
  ghost function LegalKills(p: Position, s: Coord): seq<Coord>
    requires OnBoard(s)
  {
    LegalOnly(p, s, PseudoKills(p, s))
  }

  /** A legal destination never leaves the mover's own king in check. */
  lemma LegalNeverSelfCheck(p: Position, s: Coord, t: Coord)
    requires OnBoard(s)
    requires t in LegalMoves(p, s) || t in LegalKills(p, s)
    ensures OnBoard(t) && !InCheck(Play(p, s, t), At(p, s).color)
  {
    LegalOnlyMembers(p, s, PseudoMoves(p, s));
    LegalOnlyMembers(p, s, PseudoKills(p, s));
  }

  // -------------------------------------------------- board-wide questions

  /** calc_checkmate: no piece of colour col keeps a legal quiet move or capture.
      Check is not consulted, so stalemate answers the same. */
  ghost predicate NoLegalMove(p: Position, col: Color) {
    forall a :: HoldsFriend(p, a, col) ==> LegalMoves(p, a) == [] && LegalKills(p, a) == []
  }

  /** A colour with no piece on the board has no legal move, whatever its check
      status. */
  lemma NoPieceNoLegalMove(p: Position, col: Color)
    requires forall a :: OnBoard(a) ==> !HoldsFriend(p, a, col)
    ensures NoLegalMove(p, col)
  {
  }

  /** is_threatened: some piece of colour col has t among its quiet destinations. */
  ghost predicate Threatened(p: Position, col: Color, t: Coord) {
    exists a :: HoldsFriend(p, a, col) && t in PseudoMoves(p, a)
  }

  /** Captures are not consulted, so an occupied square, or one off the board,
      is never threatened. */
  lemma OccupiedNeverThreatened(p: Position, col: Color, t: Coord)
    requires !IsEmptyAt(p, t)
    ensures !Threatened(p, col, t)
  {
  }

  // ----------------------------------------------------- starting position

  /** In the setup, a cell holds a king of a colour exactly when it is that
      colour's square (4, 0) or (4, 7). */
  lemma StartKingAt(c: Coord)
    ensures IsKingOf(Start(), c, Black) <==> c == Coord(4, 0)
    ensures IsKingOf(Start(), c, White) <==> c == Coord(4, 7)
  {
    if OnBoard(c) {
      assert At(Start(), c) == SetupSquare(Blank(), c.x, c.y);
    }
  }

  /** The setup leaves exactly one king of each colour, black's on (4, 0) and
      white's on (4, 7), and get_king_pos finds them there. */
  lemma StartKings()
    ensures forall c :: OnBoard(c) ==> (IsKingOf(Start(), c, Black) <==> c == Coord(4, 0))
    ensures forall c :: OnBoard(c) ==> (IsKingOf(Start(), c, White) <==> c == Coord(4, 7))
    ensures KingSquare(Start(), Black) == Some(Coord(4, 0))
    ensures KingSquare(Start(), White) == Some(Coord(4, 7))
  {
    forall c | OnBoard(c)
      ensures IsKingOf(Start(), c, Black) <==> c == Coord(4, 0)
      ensures IsKingOf(Start(), c, White) <==> c == Coord(4, 7)
    {
      StartKingAt(c);
    }
    KingSquareIsFirstKing(Start(), Black, Coord(4, 0));
    KingSquareIsFirstKing(Start(), White, Coord(4, 7));
  }
}
