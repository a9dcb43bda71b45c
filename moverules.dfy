/** Pseudo-legal destinations of every piece kind, as functions of a placement:
    the lists the `*_exec` methods of a cell build, in the order they build them,
    and what those lists mean. */
module MoveRules {
  import opened Board

  /** A step of one square in each coordinate: a ray direction. */
  datatype Dir = Dir(dx: int, dy: int)

  predicate IsDir(d: Dir) {
    -1 <= d.dx <= 1 && -1 <= d.dy <= 1 && d != Dir(0, 0)
  }

  const LeftUp := Dir(-1, -1)
  const RightUp := Dir(1, -1)
  const RightDown := Dir(1, 1)
  const LeftDown := Dir(-1, 1)
  const Up := Dir(0, -1)
  const Right := Dir(1, 0)
  const Down := Dir(0, 1)
  const Left := Dir(-1, 0)

  function Next(c: Coord, d: Dir): Coord {
    Coord(c.x + d.dx, c.y + d.dy)
  }

  /** The square k steps from c along d. */
  function Offset(c: Coord, d: Dir, k: nat): Coord
    decreases k
  {
    if k == 0 then c else Next(Offset(c, d, k - 1), d)
  }

  /** How many steps along d stay on the board from c. */
  function Room(c: Coord, d: Dir): (n: nat)
    requires OnBoard(c) && IsDir(d)
  {
    if d.dx == 1 then 7 - c.x
    else if d.dx == -1 then c.x
    else if d.dy == 1 then 7 - c.y
    else c.y
  }

  /** k steps along a direction move each coordinate by k, by -k or not at
      all, following the sign of the step. */
  lemma {:induction false} OffsetCoords(c: Coord, d: Dir, k: nat)
    requires IsDir(d)
    ensures Offset(c, d, k).x == if d.dx == 1 then c.x + k else if d.dx == -1 then c.x - k else c.x
    ensures Offset(c, d, k).y == if d.dy == 1 then c.y + k else if d.dy == -1 then c.y - k else c.y
    decreases k
  {
    if k > 0 {
      OffsetCoords(c, d, k - 1);
    }
  }

  /** One step and then k more is k + 1 steps. */
  lemma {:induction false} OffsetStep(c: Coord, d: Dir, k: nat)
    ensures Offset(Next(c, d), d, k) == Offset(c, d, k + 1)
    decreases k
  {
    if k > 0 {
      OffsetStep(c, d, k - 1);
    }
  }

  // ---------------------------------------------------------------- rays

  /** The quiet destinations of the ray from c along d: the squares walked while
      they are empty. */
  function RayQuiet(p: Position, c: Coord, d: Dir): (r: seq<Coord>)
    requires OnBoard(c) && IsDir(d)
    ensures forall t :: t in r ==> IsEmptyAt(p, t)
    decreases Room(c, d)
  {
    var n := Next(c, d);
    if IsEmptyAt(p, n) then [n] + RayQuiet(p, n, d) else []
  }

  /** Where the walk from c along d stops: the first square that is off the
      board or occupied. */
  function RayStop(p: Position, c: Coord, d: Dir): (b: Coord)
    requires OnBoard(c) && IsDir(d)
    ensures !OnBoard(b) || At(p, b).piece != Empty
    decreases Room(c, d)
  {
    var n := Next(c, d);
    if IsEmptyAt(p, n) then RayStop(p, n, d) else n
  }

  /** The captures the ray from c along d appends for a mover of colour col:
      the stop square when it holds an enemy, appended once from inside the
      walk when the walk made a step and once more by the check that follows. */
  function RayKills(p: Position, c: Coord, d: Dir, col: Color): (r: seq<Coord>)
    requires OnBoard(c) && IsDir(d)
    ensures forall t :: t in r ==> HoldsEnemy(p, t, col)
  {
    var b := RayStop(p, c, d);
    if HoldsEnemy(p, b, col) then (if RayQuiet(p, c, d) == [] then [b] else [b, b]) else []
  }

  /** The quiet list of a ray is exactly the run of squares 1, 2, ... steps
      away (each of them empty, by RayQuiet's contract), and the walk stops on
      the first square after that run. */
  lemma {:induction false} RayQuietShape(p: Position, c: Coord, d: Dir)
    requires OnBoard(c) && IsDir(d)
    ensures forall i :: 0 <= i < |RayQuiet(p, c, d)| ==> RayQuiet(p, c, d)[i] == Offset(c, d, i + 1)
    ensures RayStop(p, c, d) == Offset(c, d, |RayQuiet(p, c, d)| + 1)
    decreases Room(c, d)
  {
    var n := Next(c, d);
    assert n == Offset(c, d, 1);
    if IsEmptyAt(p, n) {
      var rest := RayQuiet(p, n, d);
      RayQuietShape(p, n, d);
      var q := RayQuiet(p, c, d);
      assert q == [n] + rest;
      forall i | 1 <= i < |q|
        ensures q[i] == Offset(c, d, i + 1)
      {
        assert q[i] == rest[i - 1];
        OffsetStep(c, d, i);
      }
      OffsetStep(c, d, |rest| + 1);
    }
  }

  /** A ray yields at most one capture square: the square where the walk
      stops, and only when it holds an enemy of col. */
  lemma RayKillsShape(p: Position, c: Coord, d: Dir, col: Color, t: Coord)
    requires OnBoard(c) && IsDir(d)
    ensures t in RayKills(p, c, d, col) <==> t == RayStop(p, c, d) && HoldsEnemy(p, t, col)
  {
  }

  /** Each square on a ray lies in its direction, at least one step away. */
  lemma {:induction false} RayQuietOnRay(p: Position, c: Coord, d: Dir, t: Coord)
    requires OnBoard(c) && IsDir(d) && t in RayQuiet(p, c, d)
    ensures exists k :: 1 <= k <= 7 && t == Offset(c, d, k)
  {
    RayQuietShape(p, c, d);
    var i :| 0 <= i < |RayQuiet(p, c, d)| && RayQuiet(p, c, d)[i] == t;
    RayStaysOnBoard(c, d, i + 1);
  }

  /** The state of a walk along d from s for a mover of colour col after k
      steps: it stands on the square k steps away, has listed as quiet moves
      the k squares it crossed, in order and each of them empty, and has
      listed as a capture, once it has made a step, the square ahead of it
      when that holds an enemy. */
  predicate Walk(p: Position, s: Coord, d: Dir, col: Color, k: nat, c: Coord, moves: seq<Coord>, kills: seq<Coord>) {
    OnBoard(s) && IsDir(d) && c == Offset(s, d, k) && OnBoard(c) &&
    |moves| == k && (forall i :: 0 <= i < k ==> moves[i] == Offset(s, d, i + 1) && IsEmptyAt(p, moves[i])) &&
    kills == (if k > 0 then IfEnemy(p, Next(c, d), col) else [])
  }

  /** A walk starts on s with nothing listed. */
  lemma WalkStart(p: Position, s: Coord, d: Dir, col: Color)
    requires OnBoard(s) && IsDir(d)
    ensures Walk(p, s, d, col, 0, s, [], [])
  {
  }

  /** One step of the walk: from c, with the empty square Next(c, d) ahead,
      the walk lists that square, lists the square after it as a capture when
      it holds an enemy (having listed no capture before), and moves onto it,
      which leaves it less room ahead. */
  lemma WalkStep(p: Position, s: Coord, d: Dir, col: Color, k: nat, c: Coord, moves: seq<Coord>, kills: seq<Coord>)
    requires Walk(p, s, d, col, k, c, moves, kills) && IsEmptyAt(p, Next(c, d))
    ensures Walk(p, s, d, col, k + 1, Next(c, d), moves + [Next(c, d)], kills + IfEnemy(p, Next(Next(c, d), d), col))
    ensures Room(Next(c, d), d) < Room(c, d)
  {
    assert kills == [];
    var moves' := moves + [Next(c, d)];
    forall i | 0 <= i < k + 1
      ensures moves'[i] == Offset(s, d, i + 1) && IsEmptyAt(p, moves'[i])
    {
      if i < k {
        assert moves'[i] == moves[i];
      }
    }
  }

  /** The end of the walk: with Next(c, d) off the board or occupied, the walk
      has listed the whole quiet list, and listing the square ahead once more
      when it holds an enemy completes the ray's captures. */
  lemma WalkEnd(p: Position, s: Coord, d: Dir, col: Color, k: nat, c: Coord, moves: seq<Coord>, kills: seq<Coord>)
    requires Walk(p, s, d, col, k, c, moves, kills) && !IsEmptyAt(p, Next(c, d))
    ensures moves == RayQuiet(p, s, d)
    ensures kills + IfEnemy(p, Next(c, d), col) == RayKills(p, s, d, col)
  {
    var q := RayQuiet(p, s, d);
    RayQuietShape(p, s, d);
    forall i | 1 <= i <= k
      ensures IsEmptyAt(p, Offset(s, d, i))
    {
      assert moves[i - 1] == Offset(s, d, i);
    }
    RayLength(p, s, d, k);
    assert moves == q by {
      forall i | 0 <= i < k ensures moves[i] == q[i] { }
    }
    assert RayStop(p, s, d) == Next(c, d);
    assert q == [] <==> k == 0;
  }

  /** A ray whose squares 1 .. k steps away are empty and whose square k + 1
      steps away is off the board or occupied has exactly k quiet squares. */
  lemma {:induction false} RayLength(p: Position, s: Coord, d: Dir, k: nat)
    requires OnBoard(s) && IsDir(d)
    requires forall i :: 1 <= i <= k ==> IsEmptyAt(p, Offset(s, d, i))
    requires !IsEmptyAt(p, Offset(s, d, k + 1))
    ensures |RayQuiet(p, s, d)| == k
    decreases k
  {
    var n := Next(s, d);
    assert n == Offset(s, d, 1);
    if k > 0 {
      forall i | 1 <= i <= k - 1
        ensures IsEmptyAt(p, Offset(n, d, i))
      {
        OffsetStep(s, d, i);
      }
      OffsetStep(s, d, k);
      RayLength(p, n, d, k - 1);
    }
  }

  /** A square k steps away that is still on the board is at most 7 steps away. */
  lemma RayStaysOnBoard(c: Coord, d: Dir, k: nat)
    requires OnBoard(c) && IsDir(d) && k >= 1 && OnBoard(Offset(c, d, k))
    ensures k <= 7
  {
    OffsetCoords(c, d, k);
  }

  // ------------------------------------------------------ single steps

  /** The eight knight squares in the order knight_exec tries them, one
      candidate after another. */
  function KnightTargets(s: Coord): seq<Coord> {
    [Coord(s.x - 1, s.y + 2)] +
    [Coord(s.x - 2, s.y + 1)] +
    [Coord(s.x - 1, s.y - 2)] +
    [Coord(s.x - 2, s.y - 1)] +
    [Coord(s.x + 2, s.y - 1)] +
    [Coord(s.x + 1, s.y - 2)] +
    [Coord(s.x + 1, s.y + 2)] +
    [Coord(s.x + 2, s.y + 1)]
  }

  /** The eight neighbours in the order king_exec tries them, one candidate
      after another. */
  function KingTargets(s: Coord): seq<Coord> {
    [Coord(s.x - 1, s.y)] +
    [Coord(s.x, s.y - 1)] +
    [Coord(s.x + 1, s.y)] +
    [Coord(s.x, s.y + 1)] +
    [Coord(s.x - 1, s.y - 1)] +
    [Coord(s.x + 1, s.y - 1)] +
    [Coord(s.x + 1, s.y + 1)] +
    [Coord(s.x - 1, s.y + 1)]
  }

  function Abs(n: int): nat {
    if n < 0 then -n else n
  }

  /** t is a knight's jump away from s. */
  predicate KnightJump(s: Coord, t: Coord) {
    (Abs(t.x - s.x) == 1 && Abs(t.y - s.y) == 2) || (Abs(t.x - s.x) == 2 && Abs(t.y - s.y) == 1)
  }

  /** t is one of the eight neighbours of s. */
  predicate Neighbour(s: Coord, t: Coord) {
    Abs(t.x - s.x) <= 1 && Abs(t.y - s.y) <= 1 && t != s
  }

  lemma KnightTargetsAreJumps(s: Coord, t: Coord)
    ensures t in KnightTargets(s) <==> KnightJump(s, t)
  {
  }

  lemma KingTargetsAreNeighbours(s: Coord, t: Coord)
    ensures t in KingTargets(s) <==> Neighbour(s, t)
  {
  }

  /** The single candidate t as a quiet destination: listed when it is empty. */
  function IfEmpty(p: Position, t: Coord): seq<Coord> {
    if IsEmptyAt(p, t) then [t] else []
  }

  /** The single candidate t as a capture for a mover of colour col: listed
      when it holds an enemy. */
  function IfEnemy(p: Position, t: Coord, col: Color): seq<Coord> {
    if HoldsEnemy(p, t, col) then [t] else []
  }

  /** A generator's two lists: quiet destinations and captures. */
  datatype Lists = Lists(moves: seq<Coord>, kills: seq<Coord>)

  /** One guarded probe of the candidate t by a mover of colour col: t joins
      the quiet list when it is an empty square and the captures when it
      holds an enemy; otherwise, off the board or on a friend, nothing
      changes. */
  function Probe(p: Position, t: Coord, col: Color, l: Lists): Lists {
    Lists(l.moves + IfEmpty(p, t), l.kills + IfEnemy(p, t, col))
  }

  /** The candidates of ts that are empty squares, in order. */
  function StepQuiet(p: Position, ts: seq<Coord>): (r: seq<Coord>)
  {
    if ts == [] then []
    else StepQuiet(p, ts[..|ts| - 1]) + IfEmpty(p, ts[|ts| - 1])
  }

  /** The candidates of ts that hold an enemy of col, in order. */
  function StepKills(p: Position, ts: seq<Coord>, col: Color): (r: seq<Coord>)
  {
    if ts == [] then []
    else StepKills(p, ts[..|ts| - 1], col) + IfEnemy(p, ts[|ts| - 1], col)
  }

  /** The filters keep exactly the candidates that pass: the empty squares of
      ts for the quiet list, the enemy-held squares of ts for the capture list. */
  lemma {:induction false} StepMembers(p: Position, ts: seq<Coord>, col: Color)
    ensures forall t :: t in StepQuiet(p, ts) <==> t in ts && IsEmptyAt(p, t)
    ensures forall t :: t in StepKills(p, ts, col) <==> t in ts && HoldsEnemy(p, t, col)
    decreases |ts|
  {
    if ts != [] {
      var front, last := ts[..|ts| - 1], ts[|ts| - 1];
      assert ts == front + [last];
      StepMembers(p, front, col);
    }
  }

  /** Filtering one more candidate is probing it after filtering the rest. */
  lemma StepSnoc(p: Position, ts: seq<Coord>, t: Coord, col: Color)
    ensures Lists(StepQuiet(p, ts + [t]), StepKills(p, ts + [t], col)) ==
      Probe(p, t, col, Lists(StepQuiet(p, ts), StepKills(p, ts, col)))
  {
    assert (ts + [t])[..|ts|] == ts;
  }

  /** Filtering eight candidates, offered one after another, is probing each
      of them in turn from empty lists. */
  lemma StepEight(p: Position, col: Color, a: Coord, b: Coord, c: Coord, d: Coord, e: Coord, f: Coord, g: Coord, h: Coord)
    ensures var ts := [a] + [b] + [c] + [d] + [e] + [f] + [g] + [h];
      Lists(StepQuiet(p, ts), StepKills(p, ts, col)) ==
      Probe(p, h, col,
      Probe(p, g, col,
      Probe(p, f, col,
      Probe(p, e, col,
      Probe(p, d, col,
      Probe(p, c, col,
      Probe(p, b, col,
      Probe(p, a, col, Lists([], [])))))))))
  {
    assert [a][..0] == [];
    StepSnoc(p, [a], b, col);
    StepSnoc(p, [a] + [b], c, col);
    StepSnoc(p, [a] + [b] + [c], d, col);
    StepSnoc(p, [a] + [b] + [c] + [d], e, col);
    StepSnoc(p, [a] + [b] + [c] + [d] + [e], f, col);
    StepSnoc(p, [a] + [b] + [c] + [d] + [e] + [f], g, col);
    StepSnoc(p, [a] + [b] + [c] + [d] + [e] + [f] + [g], h, col);
  }

  /** Each bounds guard of knight_exec holds exactly when its jump lands on
      the board. */
  lemma KnightGuards(s: Coord)
    requires OnBoard(s)
    ensures (s.x >= 1 && s.y <= 5) == OnBoard(Coord(s.x - 1, s.y + 2))
    ensures (s.x >= 2 && s.y <= 6) == OnBoard(Coord(s.x - 2, s.y + 1))
    ensures (s.x >= 1 && s.y >= 2) == OnBoard(Coord(s.x - 1, s.y - 2))
    ensures (s.x >= 2 && s.y >= 1) == OnBoard(Coord(s.x - 2, s.y - 1))
    ensures (s.x <= 5 && s.y >= 1) == OnBoard(Coord(s.x + 2, s.y - 1))
    ensures (s.x <= 6 && s.y >= 2) == OnBoard(Coord(s.x + 1, s.y - 2))
    ensures (s.x <= 6 && s.y <= 5) == OnBoard(Coord(s.x + 1, s.y + 2))
    ensures (s.x <= 5 && s.y <= 6) == OnBoard(Coord(s.x + 2, s.y + 1))
  {
  }

  /** Each bounds guard of king_exec holds exactly when its neighbour is on
      the board. */
  lemma KingGuards(s: Coord)
    requires OnBoard(s)
    ensures (s.x > 0) == OnBoard(Coord(s.x - 1, s.y))
    ensures (s.y > 0) == OnBoard(Coord(s.x, s.y - 1))
    ensures (s.x < 7) == OnBoard(Coord(s.x + 1, s.y))
    ensures (s.y < 7) == OnBoard(Coord(s.x, s.y + 1))
    ensures (s.x > 0 && s.y > 0) == OnBoard(Coord(s.x - 1, s.y - 1))
    ensures (s.x < 7 && s.y > 0) == OnBoard(Coord(s.x + 1, s.y - 1))
    ensures (s.x < 7 && s.y < 7) == OnBoard(Coord(s.x + 1, s.y + 1))
    ensures (s.x > 0 && s.y < 7) == OnBoard(Coord(s.x - 1, s.y + 1))
  {
  }

  /** The knight lists are the eight probes knight_exec makes, in its order:
      read from the bottom up, the innermost probe being the first one made. */
  lemma KnightSteps(p: Position, s: Coord, col: Color)
    ensures Lists(StepQuiet(p, KnightTargets(s)), StepKills(p, KnightTargets(s), col)) ==
      Probe(p, Coord(s.x + 2, s.y + 1), col,
      Probe(p, Coord(s.x + 1, s.y + 2), col,
      Probe(p, Coord(s.x + 1, s.y - 2), col,
      Probe(p, Coord(s.x + 2, s.y - 1), col,
      Probe(p, Coord(s.x - 2, s.y - 1), col,
      Probe(p, Coord(s.x - 1, s.y - 2), col,
      Probe(p, Coord(s.x - 2, s.y + 1), col,
      Probe(p, Coord(s.x - 1, s.y + 2), col, Lists([], [])))))))))
  {
    StepEight(p, col, Coord(s.x - 1, s.y + 2), Coord(s.x - 2, s.y + 1), Coord(s.x - 1, s.y - 2), Coord(s.x - 2, s.y - 1), Coord(s.x + 2, s.y - 1), Coord(s.x + 1, s.y - 2), Coord(s.x + 1, s.y + 2), Coord(s.x + 2, s.y + 1));
  }

  /** The king lists are the eight probes king_exec makes, in its order:
      read from the bottom up, the innermost probe being the first one made. */
  lemma KingSteps(p: Position, s: Coord, col: Color)
    ensures Lists(StepQuiet(p, KingTargets(s)), StepKills(p, KingTargets(s), col)) ==
      Probe(p, Coord(s.x - 1, s.y + 1), col,
      Probe(p, Coord(s.x + 1, s.y + 1), col,
      Probe(p, Coord(s.x + 1, s.y - 1), col,
      Probe(p, Coord(s.x - 1, s.y - 1), col,
      Probe(p, Coord(s.x, s.y + 1), col,
      Probe(p, Coord(s.x + 1, s.y), col,
      Probe(p, Coord(s.x, s.y - 1), col,
      Probe(p, Coord(s.x - 1, s.y), col, Lists([], [])))))))))
  {
    StepEight(p, col, Coord(s.x - 1, s.y), Coord(s.x, s.y - 1), Coord(s.x + 1, s.y), Coord(s.x, s.y + 1), Coord(s.x - 1, s.y - 1), Coord(s.x + 1, s.y - 1), Coord(s.x + 1, s.y + 1), Coord(s.x - 1, s.y + 1));
  }

  // ---------------------------------------------------------------- pawn

  /** Rows a pawn of colour col advances by: white toward row 0. */
  function Forward(col: Color): int {
    if col == White then -1 else 1
  }

  function HomeRow(col: Color): int {
    if col == White then 6 else 1
  }

  function LastRow(col: Color): int {
    if col == White then 0 else 7
  }

  /** pawn_exec's quiet list for the pawn on s. */
  function PawnQuiet(p: Position, s: Coord): (r: seq<Coord>)
    requires OnBoard(s)
    ensures forall t :: t in r ==> IsEmptyAt(p, t)
  {
    var col := At(p, s).color;
    var one := Coord(s.x, s.y + Forward(col));
    var two := Coord(s.x, s.y + 2 * Forward(col));
    if s.y != LastRow(col) && IsEmptyAt(p, one) then
      [one] + (if s.y == HomeRow(col) then IfEmpty(p, two) else [])
    else []
  }

  /** pawn_exec's capture list for the pawn on s: the forward diagonal that
      holds an enemy, white trying the left one first and black the right one. */
  function PawnKills(p: Position, s: Coord): (r: seq<Coord>)
    requires OnBoard(s)
    ensures forall t :: t in r ==> HoldsEnemy(p, t, At(p, s).color)
  {
    var col := At(p, s).color;
    var left := Coord(s.x - 1, s.y + Forward(col));
    var right := Coord(s.x + 1, s.y + Forward(col));
    if s.y == LastRow(col) then []
    else if col == White then IfEnemy(p, left, col) + IfEnemy(p, right, col)
    else IfEnemy(p, right, col) + IfEnemy(p, left, col)
  }

  /** The pawn lists written out for each colour, in the terms pawn_exec
      tests: white moves towards row 0 from its home row 6, black towards row 7
      from its home row 1. */
  lemma PawnByColour(p: Position, s: Coord)
    requires OnBoard(s)
    ensures At(p, s).color == White ==>
      PawnQuiet(p, s) == (if s.y > 0 && IsEmptyAt(p, Coord(s.x, s.y - 1))
                          then [Coord(s.x, s.y - 1)] + (if s.y == 6 then IfEmpty(p, Coord(s.x, s.y - 2)) else [])
                          else []) &&
      PawnKills(p, s) == (if s.y > 0
                          then [] + IfEnemy(p, Coord(s.x - 1, s.y - 1), White) + IfEnemy(p, Coord(s.x + 1, s.y - 1), White)
                          else [])
    ensures At(p, s).color == Black ==>
      PawnQuiet(p, s) == (if s.y < 7 && IsEmptyAt(p, Coord(s.x, s.y + 1))
                          then [Coord(s.x, s.y + 1)] + (if s.y == 1 then IfEmpty(p, Coord(s.x, s.y + 2)) else [])
                          else []) &&
      PawnKills(p, s) == (if s.y < 7
                          then [] + IfEnemy(p, Coord(s.x + 1, s.y + 1), Black) + IfEnemy(p, Coord(s.x - 1, s.y + 1), Black)
                          else [])
  {
  }

  /** What a pawn is offered, square by square: one step forward onto an empty
      square; two steps only from its home row across two empty squares; a
      forward diagonal only onto an enemy; nothing from its last row. */
  lemma PawnDestinations(p: Position, s: Coord, t: Coord)
    requires OnBoard(s)
    ensures var col := At(p, s).color;
      var f := Forward(col);
      && (t in PawnQuiet(p, s) <==>
            s.y != LastRow(col) && IsEmptyAt(p, Coord(s.x, s.y + f)) &&
            (t == Coord(s.x, s.y + f) ||
             (t == Coord(s.x, s.y + 2 * f) && s.y == HomeRow(col) && IsEmptyAt(p, t))))
      && (t in PawnKills(p, s) <==>
            s.y != LastRow(col) && t.y == s.y + f && Abs(t.x - s.x) == 1 && HoldsEnemy(p, t, col))
  {
    var col := At(p, s).color;
    var f := Forward(col);
    if s.y != LastRow(col) {
      var left := Coord(s.x - 1, s.y + f);
      var right := Coord(s.x + 1, s.y + f);
      if t.y == s.y + f && Abs(t.x - s.x) == 1 {
        assert t == left || t == right;
      }
    }
  }

  // ------------------------------------------------------- slide pieces

  /** bishop_exec's lists: the rays left-up, right-up, right-down, left-down. */
  function BishopQuiet(p: Position, s: Coord): seq<Coord>
    requires OnBoard(s)
  {
    RayQuiet(p, s, LeftUp) + RayQuiet(p, s, RightUp) + RayQuiet(p, s, RightDown) + RayQuiet(p, s, LeftDown)
  }

  function BishopKills(p: Position, s: Coord): seq<Coord>
    requires OnBoard(s)
  {
    var col := At(p, s).color;
    RayKills(p, s, LeftUp, col) + RayKills(p, s, RightUp, col) + RayKills(p, s, RightDown, col) + RayKills(p, s, LeftDown, col)
  }

  /** rook_exec's lists: the rays up, right, down, left. */
  function RookQuiet(p: Position, s: Coord): seq<Coord>
    requires OnBoard(s)
  {
    RayQuiet(p, s, Up) + RayQuiet(p, s, Right) + RayQuiet(p, s, Down) + RayQuiet(p, s, Left)
  }

  function RookKills(p: Position, s: Coord): seq<Coord>
    requires OnBoard(s)
  {
    var col := At(p, s).color;
    RayKills(p, s, Up, col) + RayKills(p, s, Right, col) + RayKills(p, s, Down, col) + RayKills(p, s, Left, col)
  }

  /** queen_exec walks the bishop's four rays and then the rook's four. */
  function QueenQuiet(p: Position, s: Coord): seq<Coord>
    requires OnBoard(s)
  {
    BishopQuiet(p, s) + RookQuiet(p, s)
  }

  function QueenKills(p: Position, s: Coord): seq<Coord>
    requires OnBoard(s)
  {
    BishopKills(p, s) + RookKills(p, s)
  }

  /** The queen's destinations are the union of the bishop's and the rook's
      from the same square. */
  lemma QueenIsBishopAndRook(p: Position, s: Coord, t: Coord)
    requires OnBoard(s)
    ensures t in QueenQuiet(p, s) <==> t in BishopQuiet(p, s) || t in RookQuiet(p, s)
    ensures t in QueenKills(p, s) <==> t in BishopKills(p, s) || t in RookKills(p, s)
  {
  }

  // ----------------------------------------------------------- dispatch

  /** The quiet list calc_possible_moves leaves on the cell s. Every entry is
      an empty square on the board, so never s itself when s holds a piece. */
  function PseudoMoves(p: Position, s: Coord): (r: seq<Coord>)
    requires OnBoard(s)
    ensures forall t :: t in r ==> IsEmptyAt(p, t) && t != s
  {
    match At(p, s).piece
    case Empty => []
    case Pawn => PawnQuiet(p, s)
    case Knight => StepMembers(p, KnightTargets(s), Black); StepQuiet(p, KnightTargets(s))
    case Bishop => BishopQuiet(p, s)
    case Rook => RookQuiet(p, s)
    case Queen => QueenQuiet(p, s)
    case King => StepMembers(p, KingTargets(s), Black); StepQuiet(p, KingTargets(s))
  }

  /** The capture list calc_possible_moves leaves on the cell s. Every entry
      holds a piece of the other colour, so never a friendly piece and never s. */
  function PseudoKills(p: Position, s: Coord): (r: seq<Coord>)
    requires OnBoard(s)
    ensures forall t :: t in r ==> HoldsEnemy(p, t, At(p, s).color) && t != s
  {
    var col := At(p, s).color;
    match At(p, s).piece
    case Empty => []
    case Pawn => PawnKills(p, s)
    case Knight => StepMembers(p, KnightTargets(s), col); StepKills(p, KnightTargets(s), col)
    case Bishop => BishopKills(p, s)
    case Rook => RookKills(p, s)
    case Queen => QueenKills(p, s)
    case King => StepMembers(p, KingTargets(s), col); StepKills(p, KingTargets(s), col)
  }

  /** A quiet list and a capture list never share a square. */
  lemma MovesAndKillsDisjoint(p: Position, s: Coord, t: Coord)
    requires OnBoard(s)
    ensures !(t in PseudoMoves(p, s) && t in PseudoKills(p, s))
  {
  }

  /** A knight is offered exactly the on-board squares a knight's jump away
      that do not hold a friendly piece: the empty ones as quiet moves, the
      enemy ones as captures. */
  lemma KnightDestinations(p: Position, s: Coord, t: Coord)
    requires OnBoard(s) && At(p, s).piece == Knight
    ensures t in PseudoMoves(p, s) <==> KnightJump(s, t) && IsEmptyAt(p, t)
    ensures t in PseudoKills(p, s) <==> KnightJump(s, t) && HoldsEnemy(p, t, At(p, s).color)
    ensures t in PseudoMoves(p, s) || t in PseudoKills(p, s) <==>
      KnightJump(s, t) && OnBoard(t) && !HoldsFriend(p, t, At(p, s).color)
  {
    KnightTargetsAreJumps(s, t);
    StepMembers(p, KnightTargets(s), At(p, s).color);
  }

  /** A king is offered exactly the on-board neighbours that do not hold a
      friendly piece, split the same way. */
  lemma KingDestinations(p: Position, s: Coord, t: Coord)
    requires OnBoard(s) && At(p, s).piece == King
    ensures t in PseudoMoves(p, s) <==> Neighbour(s, t) && IsEmptyAt(p, t)
    ensures t in PseudoKills(p, s) <==> Neighbour(s, t) && HoldsEnemy(p, t, At(p, s).color)
    ensures t in PseudoMoves(p, s) || t in PseudoKills(p, s) <==>
      Neighbour(s, t) && OnBoard(t) && !HoldsFriend(p, t, At(p, s).color)
  {
    KingTargetsAreNeighbours(s, t);
    StepMembers(p, KingTargets(s), At(p, s).color);
  }
}
