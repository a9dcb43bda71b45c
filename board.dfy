/** Values shared by the whole engine: colours, piece tags, what a cell holds,
    coordinates, and an 8x8 placement of pieces taken as a value. */
module Board {

  datatype Option<T> = None | Some(value: T)

  /** A piece_color: 0 is black, 1 is white. */
  datatype Color = Black | White

  /** A cell's piece tag; Empty stands for the empty tag "". */
  datatype Tag = Empty | Pawn | Knight | Bishop | Rook | Queen | King

  /** What one cell holds: its piece tag and its piece_color. The colour is kept
      on an emptied cell, and move generation never consults it there. */
  datatype Square = Square(piece: Tag, color: Color)

  /** A coordinate [x, y]: x is the column, y the row. Row 0 is black's back
      rank and row 7 white's. */
  datatype Coord = Coord(x: int, y: int)

  predicate OnBoard(c: Coord) {
    0 <= c.x < 8 && 0 <= c.y < 8
  }

  /** The placement of all 64 cells, indexed p[x][y] like the board itself. */
  type Position = p: seq<seq<Square>> | |p| == 8 && forall i :: 0 <= i < 8 ==> |p[i]| == 8
    witness seq(8, _ => seq(8, _ => Square(Empty, Black)))

  function At(p: Position, c: Coord): Square
    requires OnBoard(c)
  {
    p[c.x][c.y]
  }

  predicate IsEmptyAt(p: Position, c: Coord) {
    OnBoard(c) && At(p, c).piece == Empty
  }

  /** c holds a piece whose colour is not col. */
  predicate HoldsEnemy(p: Position, c: Coord, col: Color) {
    OnBoard(c) && At(p, c).piece != Empty && At(p, c).color != col
  }

  /** c holds a piece of colour col. */
  predicate HoldsFriend(p: Position, c: Coord, col: Color) {
    OnBoard(c) && At(p, c).piece != Empty && At(p, c).color == col
  }

  /** Two placements that agree on every cell are the same placement. */
  lemma Extensional(p: Position, q: Position)
    requires forall a, b :: 0 <= a < 8 && 0 <= b < 8 ==> p[a][b] == q[a][b]
    ensures p == q
  {
    forall a | 0 <= a < 8
      ensures p[a] == q[a]
    {
      assert |p[a]| == |q[a]| == 8;
      assert forall b :: 0 <= b < 8 ==> p[a][b] == q[a][b];
    }
  }

  /** The placement with the cell c replaced by sq. */
  function Put(p: Position, c: Coord, sq: Square): (r: Position)
    requires OnBoard(c)
    ensures At(r, c) == sq
    ensures forall a :: OnBoard(a) && a != c ==> At(r, a) == At(p, a)
  {
    p[c.x := p[c.x][c.y := sq]]
  }

  /** The placement after the piece on s is carried to t: t takes the mover's
      tag and colour, then s loses its tag and keeps its colour. */
  function Play(p: Position, s: Coord, t: Coord): (r: Position)
    requires OnBoard(s) && OnBoard(t)
    ensures At(r, s) == Square(Empty, At(p, s).color)
    ensures t != s ==> At(r, t) == At(p, s)
    ensures forall a :: OnBoard(a) && a != s && a != t ==> At(r, a) == At(p, a)
  {
    var moved := Put(p, t, At(p, s));
    Put(moved, s, Square(Empty, At(moved, s).color))
  }

  /** The placement of a freshly built board: no piece, colour 0, on every cell. */
  function Blank(): (r: Position)
    ensures forall a :: OnBoard(a) ==> At(r, a) == Square(Empty, Black)
  {
    seq(8, _ => seq(8, _ => Square(Empty, Black)))
  }

  /** The back rank, column by column: r, n, b, q, k, b, n, r. */
  function BackRank(x: int): (t: Tag)
    requires 0 <= x < 8
    ensures t == King <==> x == 4
    ensures t == Queen <==> x == 3
  {
    [Rook, Knight, Bishop, Queen, King, Bishop, Knight, Rook][x]
  }

  /** What the standard setup leaves on cell (x, y) of a board p. */
  function SetupSquare(p: Position, x: int, y: int): Square
    requires 0 <= x < 8 && 0 <= y < 8
  {
    if y == 0 then Square(BackRank(x), Black)
    else if y == 1 then Square(Pawn, Black)
    else if y == 6 then Square(Pawn, White)
    else if y == 7 then Square(BackRank(x), White)
    else p[x][y]
  }

  /** The standard setup written over the placement p: rows 0, 1, 6 and 7 are
      replaced and rows 2 to 5 keep what p had. */
  function Filled(p: Position): (r: Position)
    ensures forall a :: OnBoard(a) ==> At(r, a) == SetupSquare(p, a.x, a.y)
  {
    seq(8, x requires 0 <= x < 8 => seq(8, y requires 0 <= y < 8 => SetupSquare(p, x, y)))
  }

  /** The standard starting position: the setup written over a fresh board. */
  function Start(): Position {
    Filled(Blank())
  }
}
