/** The 8x8 board: coordinates, moves, the grid of optional pieces, and BoardState. */
module Boards {
  import opened Wrappers
  import opened Pieces

  /** A file or rank index. */
  type Idx = i: int | 0 <= i < 8

  /** A square `(file, rank)`: file a..h is 0..7, rank 1..8 is 0..7. */
  datatype Coord = Coord(file: Idx, rank: Idx)

  /** A move `(from, to)`, as held in a game record. */
  datatype Move = Move(from: Coord, to: Coord)

  /** What a square holds: a piece or None. */
  type Occupant = Option<Piece>

  const EmptyFile: seq<Occupant> := seq(8, _ => None)

  predicate IsGrid(g: seq<seq<Occupant>>)
  {
    |g| == 8 && forall x | 0 <= x < 8 :: |g[x]| == 8
  }

  /** The board as the source stores it: a list of eight files, each a list of eight ranks. */
  type Grid = g: seq<seq<Occupant>> | IsGrid(g)
    witness seq(8, _ => EmptyFile)

  const EmptyGrid: Grid := seq(8, _ => EmptyFile)

  /** A board value: the grid and the ply counter `last_move` (-1 before the first move). */
  datatype Board = Board(grid: Grid, lastMove: int)

  /** One file of the starting position, white at rank 0: the back-rank piece, then the pawns. */
  function StartFile(back: Kind): seq<Occupant>
  {
    [Some(Piece(White, back)), Some(Piece(White, Pawn)), None, None, None, None,
     Some(Piece(Black, Pawn)), Some(Piece(Black, back))]
  }

  /** The starting position (the `default_start` list of BoardState). */
  const InitialGrid: Grid := [
    StartFile(Rook), StartFile(Knight), StartFile(Bishop), StartFile(Queen),
    StartFile(King), StartFile(Bishop), StartFile(Knight), StartFile(Rook)]

  const InitialBoard: Board := Board(InitialGrid, -1)

  lemma EmptyGridIsEmpty(c: Coord)
    ensures At(EmptyGrid, c) == None
  {
  }

  function At(g: Grid, c: Coord): Occupant
  {
    g[c.file][c.rank]
  }

  /** Python list indexing: an index in [-8, 0) counts back from the end of the list. */
  function Wrap(i: int): (w: Idx)
    requires -8 <= i < 8
    ensures w % 8 == i % 8
  {
    if i < 0 then i + 8 else i
  }

  /** `board[x][y]` for Python indices that may be negative. */
  function PyAt(g: Grid, x: int, y: int): Occupant
    requires -8 <= x < 8 && -8 <= y < 8
  {
    g[Wrap(x)][Wrap(y)]
  }

  /** The grid after `board[c.file][c.rank] = s`: that square holds `s`, no other square changes. */
  function Set(g: Grid, c: Coord, s: Occupant): (r: Grid)
    ensures At(r, c) == s
    ensures forall d: Coord | d != c :: At(r, d) == At(g, d)
  {
    g[c.file := g[c.file][c.rank := s]]
  }

  /** Grids are equal exactly when every square holds the same thing. */
  lemma {:induction false} GridsEqualPointwise(a: Grid, b: Grid)
    ensures a == b <==> forall c: Coord :: At(a, c) == At(b, c)
  {
    if forall c: Coord :: At(a, c) == At(b, c) {
      forall x: Idx ensures a[x] == b[x] {
        forall y: Idx ensures a[x][y] == b[x][y] {
          assert At(a, Coord(x, y)) == At(b, Coord(x, y));
        }
      }
    }
  }

  /** The two grids agree on every square outside `squares`. */
  ghost predicate SameExcept(g1: Grid, g2: Grid, squares: set<Coord>)
  {
    forall c: Coord :: c !in squares ==> At(g1, c) == At(g2, c)
  }

  /** BoardState.__eq__: boards compare their grids only; the ply counter is ignored. */
  predicate BoardEquals(a: Board, b: Board)
  {
    a.grid == b.grid
  }

  /** The mutable board of one game (BoardState). */
  class BoardState {
    var board: Grid
    var lastMove: int

    constructor (board: Grid, lastMove: int)
      ensures this.board == board && this.lastMove == lastMove
    {
      this.board := board;
      this.lastMove := lastMove;
    }

    /** square(coordinate): the piece on a square, None if empty. */
    function Square(c: Coord): Occupant
      reads this
    {
      At(board, c)
    }

    function Snapshot(): Board
      reads this
    {
      Board(board, lastMove)
    }

    /** set_square(coordinate, piece): writes one square in place. */
    method SetSquare(c: Coord, p: Occupant)
      modifies this
      ensures board == Set(old(board), c, p) && lastMove == old(lastMove)
      ensures Square(c) == p && forall d: Coord | d != c :: Square(d) == old(Square(d))
    {
      board := board[c.file := board[c.file][c.rank := p]];
    }

    /** increment_last_move */
    method IncrementLastMove()
      modifies this
      ensures lastMove == old(lastMove) + 1 && board == old(board)
    {
      lastMove := lastMove + 1;
    }
  }
}
