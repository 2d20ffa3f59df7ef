/**
  The move-legality engine: is_legal_chess_move and is_in_check, which call each other.

  Both source files hold a copy of the engine. They differ in three places, selected by
  `Variant`: schizochess.py honours `allow_moves_in_place`; it reads `.full_name` of a square
  that may be empty (an AttributeError where chess.py compares strings and gets False); and it
  builds the castling rook's coordinates by adding two ints (a TypeError where chess.py
  builds 'h1'-style strings and relocates the rook).

  The two functions can re-enter each other without end (a king probing the other king by a
  castle-shaped move), so every function here takes `fuel`, the number of nested calls still
  allowed, counting both is_in_check and the castle's test of the king's step onto the passed
  square; when it runs out the result is Err(RecursionLimit), Python's RecursionError.
*/
module Legality {
  import opened Wrappers
  import opened Pieces
  import opened Boards

  datatype Variant = SchizochessPy | ChessPy

  /** The nesting of is_in_check calls the model allows before it reports RecursionError:
      Python's default limit of 1000 frames, two frames per nesting level. */
  const RecursionBudget: nat := 500

  /** The keyword arguments of is_legal_chess_move. */
  datatype Flags = Flags(record: Option<seq<Move>>, checkForCheck: bool,
                         allowOutOfTurn: bool, allowInPlace: bool)

  /** No keyword arguments at all. */
  const Defaults: Flags := Flags(None, true, false, false)

  /** The arguments is_in_check probes with. */
  const Probe: Flags := Flags(None, false, true, false)

  /** Only `record=` given, as commit_moves does. */
  function Recorded(record: seq<Move>): Flags
  {
    Flags(Some(record), true, false, false)
  }

  datatype Side = Kingside | Queenside

  /** What the movement rules found: no legal shape, or the kind of legal move. */
  datatype Shape = Rejected | Plain | EnPassant(victim: Coord) | Castle(side: Side)

  type Dir = d: int | -1 <= d <= 1

  function Abs(i: int): nat
  {
    if i < 0 then -i else i
  }

  function Max(a: int, b: int): int
  {
    if a < b then b else a
  }

  function Min(a: int, b: int): int
  {
    if a < b then a else b
  }

  /** `{'white': 1, 'black': -1}` */
  function Forward(c: Color): Dir
  {
    if c == White then 1 else -1
  }

  /** The rank a pawn may advance two squares from. */
  function PawnHome(c: Color): Idx
  {
    if c == White then 1 else 6
  }

  /** The rank a pawn lands on when it takes en passant. */
  function EnPassantRank(c: Color): Idx
  {
    if c == White then 5 else 2
  }

  /** The rank of the castling rooks. */
  function BackRank(c: Color): Idx
  {
    if c == White then 0 else 7
  }

  function CornerFile(s: Side): Idx
  {
    if s == Kingside then 7 else 0
  }

  /** The file the king passes and the rook lands on: `{2: 3, 6: 5}`. */
  function PassedFile(s: Side): Idx
  {
    if s == Kingside then 5 else 3
  }

  /** The castling rook's starting corner. */
  function Corner(s: Side, c: Color): Coord
  {
    Coord(CornerFile(s), BackRank(c))
  }

  /** `2*(b > a) - 1`: the step from a toward b, -1 when b is not greater. */
  function DirTo(a: int, b: int): Dir
  {
    if b > a then 1 else -1
  }

  /** `i*d` for a step d of -1, 0 or 1. */
  function Offset(d: Dir, i: int): int
  {
    if d > 0 then i else if d < 0 then -i else 0
  }

  /** How far a move advances in its mover's direction: `(end[1]-start[1]) * {'white':1, 'black':-1}`. */
  function Advance(c: Color, m: Move): int
  {
    if c == White then m.to.rank - m.from.rank else m.from.rank - m.to.rank
  }

  /** `for i in range(i, n): if board.square((x + i*dx, y + i*dy)) is not None: return False`,
      with Python's negative indices. */
  function ScanClear(g: Grid, from: Coord, dx: Dir, dy: Dir, i: int, n: int): bool
    requires 1 <= i && n <= 8
    requires dx > 0 ==> from.file + n - 1 <= 7
    requires dy > 0 ==> from.rank + n - 1 <= 7
    decreases n - i
  {
    if i >= n then true
    else PyAt(g, from.file + Offset(dx, i), from.rank + Offset(dy, i)) == None
         && ScanClear(g, from, dx, dy, i + 1, n)
  }

  /** The rook and queen path loop. Its step on both axes comes from the RANK comparison, so a
      move along a rank always scans toward lower files (wrapping below file 0). */
  function OrthogonalClear(g: Grid, m: Move): bool
    requires Min(Abs(m.to.file - m.from.file), Abs(m.to.rank - m.from.rank)) == 0
  {
    var dx, dy := Abs(m.to.file - m.from.file), Abs(m.to.rank - m.from.rank);
    var s := DirTo(m.from.rank, m.to.rank);
    ScanClear(g, m.from, if dx != 0 then s else 0, if dy != 0 then s else 0, 1, Max(dx, dy))
  }

  /** The bishop and queen path loop. */
  function DiagonalClear(g: Grid, m: Move): bool
    requires Abs(m.to.file - m.from.file) == Abs(m.to.rank - m.from.rank)
  {
    ScanClear(g, m.from, DirTo(m.from.file, m.to.file), DirTo(m.from.rank, m.to.rank), 1,
              Abs(m.to.file - m.from.file))
  }

  /** Python's `s[i]`, defined for -|s| <= i < |s|. */
  function PyIndex<T>(s: seq<T>, i: int): T
    requires -|s| <= i < |s|
  {
    if i < 0 then s[|s| + i] else s[i]
  }

  /** Python's `s[:stop]`. */
  function PySliceTo<T>(s: seq<T>, stop: int): (r: seq<T>)
    ensures |r| <= |s| && r == s[..|r|]
    ensures 0 <= stop <= |s| ==> |r| == stop
  {
    if stop >= 0 then s[..Min(stop, |s|)] else s[..Max(0, |s| + stop)]
  }

  /** Python's `s[start:]`. */
  function PySliceFrom<T>(s: seq<T>, start: int): (r: seq<T>)
    ensures |r| <= |s| && r == s[|s| - |r|..]
    ensures 0 <= start <= |s| ==> |r| == |s| - start
  {
    if start >= 0 then s[Min(start, |s|)..] else s[Max(0, |s| + start)..]
  }

  /** Whether a move of `played` started from the king's square or the rook's corner. */
  predicate Touched(played: seq<Move>, king: Coord, corner: Coord)
  {
    exists i | 0 <= i < |played| :: played[i].from == king || played[i].from == corner
  }

  /** The exceptions the engine can raise: RecursionError, `.full_name` of an empty square
      (AttributeError), the castling rook's integer coordinate (TypeError) and a record too
      short for index `last_move` (IndexError). */
  predicate EngineFault(f: Fault)
  {
    f == RecursionLimit || f == AttributeError || f == TypeError || f == IndexError
  }

  /** The pawn rules (schizochess.py:256-285, chess.py:183-212). */
  function PawnMovement(v: Variant, b: Board, m: Move, record: Option<seq<Move>>, p: Piece): (r: Result<Shape>)
    ensures r.Ok? ==> !r.value.Castle?
    ensures r.Err? ==> r.fault == IndexError || (r.fault == AttributeError && v == SchizochessPy)
  {
    var dx := Abs(m.to.file - m.from.file);
    var fwd := Forward(p.color);
    if dx == 0 then
      // `(2, 1)[(start[1] != home):]`: two steps are allowed only from the home rank
      var allowed := [2, 1][if m.from.rank != PawnHome(p.color) then 1 else 0..];
      if Advance(p.color, m) !in allowed then Ok(Rejected)
      else if Abs(m.to.rank - m.from.rank) == 2
              && At(b.grid, Coord(m.from.file, m.from.rank + fwd)) != None then Ok(Rejected)
      else if At(b.grid, m.to) != None then Ok(Rejected)
      else Ok(Plain)
    else if dx == 1 then
      if m.to.rank - m.from.rank != fwd then Ok(Rejected)
      else if At(b.grid, m.to) != None then Ok(Plain)
      else if m.to.rank != EnPassantRank(p.color) then Ok(Rejected)
      else
        var victim := Coord(m.to.file, m.to.rank - fwd);
        var behind := At(b.grid, victim);
        if v == SchizochessPy && behind == None then Err(AttributeError)
        else if behind != Some(Piece(Opponent(p.color), Pawn)) then Ok(Rejected)
        else if record.None? then Ok(EnPassant(victim))
        else if !(-|record.value| <= b.lastMove < |record.value|) then Err(IndexError)
        else if PyIndex(record.value, b.lastMove).to != victim then Ok(Rejected)
        else Ok(EnPassant(victim))
    else Ok(Rejected)
  }

  /** The rook, knight, bishop and queen rules, none of which recurse. */
  function RangedMovement(b: Board, m: Move, k: Kind): Shape
    requires k != Pawn && k != King
  {
    var dx, dy := Abs(m.to.file - m.from.file), Abs(m.to.rank - m.from.rank);
    match k
    case Rook =>
      if Min(dx, dy) == 0 && OrthogonalClear(b.grid, m) then Plain else Rejected
    case Knight =>
      if (dx, dy) == (2, 1) || (dx, dy) == (1, 2) then Plain else Rejected
    case Bishop =>
      if dx == dy && DiagonalClear(b.grid, m) then Plain else Rejected
    case Queen =>
      if dx == dy then (if DiagonalClear(b.grid, m) then Plain else Rejected)
      else if Min(dx, dy) == 0 then (if OrthogonalClear(b.grid, m) then Plain else Rejected)
      else Rejected
  }

  /** is_legal_chess_move. */
  function IsLegal(fuel: nat, v: Variant, b: Board, m: Move, fl: Flags): (r: Result<bool>)
    ensures r == Ok(true) ==> At(b.grid, m.from).Some?
    ensures r.Err? ==> EngineFault(r.fault)
    decreases fuel, 2
  {
    var piece := At(b.grid, m.from);
    var captured := At(b.grid, m.to);
    if piece.None? then Ok(false)
    else
      var p := piece.value;
      if !fl.allowOutOfTurn && CurrentTurn(b.lastMove) != p.color then Ok(false)
      else if !(v == SchizochessPy && fl.allowInPlace) && m.from == m.to then Ok(false)
      else if captured.Some? && captured.value.color == p.color then Ok(false)
      else match Movement(fuel, v, b, m, fl, p)
        case Err(e) => Err(e)
        case Ok(Rejected) => Ok(false)
        case Ok(shape) => if fl.checkForCheck then KingSafety(fuel, v, b, m, p, shape) else Ok(true)
  }

  /** The movement rules for the piece kind (the source's chain of `elif piece_type == ...`). */
  function Movement(fuel: nat, v: Variant, b: Board, m: Move, fl: Flags, p: Piece): (r: Result<Shape>)
    ensures r.Ok? && r.value.Castle? ==> p.kind == King
    ensures r.Err? ==> EngineFault(r.fault)
    decreases fuel, 1
  {
    match p.kind
    case Pawn => PawnMovement(v, b, m, fl.record, p)
    case King => KingMovement(fuel, v, b, m, fl, p)
    case _ => Ok(RangedMovement(b, m, p.kind))
  }

  /** The king rules: a step of at most one square, or a castle attempt whenever the rank is
      unchanged and the destination file is 2 or 6 (schizochess.py:326-357, chess.py:253-284). */
  function KingMovement(fuel: nat, v: Variant, b: Board, m: Move, fl: Flags, p: Piece): (r: Result<Shape>)
    ensures r.Ok? ==> !r.value.EnPassant?
    ensures r.Ok? && r.value.Castle? ==> m.from.rank == m.to.rank && (m.to.file == 2 || m.to.file == 6)
    ensures r.Err? ==> EngineFault(r.fault)
    decreases fuel, 0
  {
    var dx, dy := Abs(m.to.file - m.from.file), Abs(m.to.rank - m.from.rank);
    if dy == 0 && (m.to.file == 2 || m.to.file == 6) then
      var side := if m.to.file == 6 then Kingside else Queenside;
      var passed := Coord(PassedFile(side), m.to.rank);
      if fuel == 0 then Err(RecursionLimit)
      else match InCheck(fuel - 1, v, b, p.color)
        case Err(e) => Err(e)
        case Ok(true) => Ok(Rejected)
        case Ok(false) =>
          if At(b.grid, passed) != None then Ok(Rejected)
          else match IsLegal(fuel - 1, v, b, Move(m.from, passed), Defaults)
            case Err(e) => Err(e)
            case Ok(false) => Ok(Rejected)
            case Ok(true) =>
              var corner := Corner(side, p.color);
              var rook := At(b.grid, corner);
              if v == SchizochessPy && rook == None then Err(AttributeError)
              else if rook != Some(Piece(p.color, Rook)) then Ok(Rejected)
              else if fl.record.Some? && Touched(PySliceTo(fl.record.value, b.lastMove + 1), m.from, corner)
              then Ok(Rejected)
              else Ok(Castle(side))
    else if Max(dx, dy) > 1 then Ok(Rejected)
    else Ok(Plain)
  }

  /** The scratch board the king-safety test looks at: the move played on a copy, the ply
      advanced, then the castling rook moved or the pawn taken en passant removed. */
  function Scratch(v: Variant, b: Board, m: Move, p: Piece, shape: Shape): (r: Result<Board>)
    ensures r.Err? <==> v == SchizochessPy && shape.Castle?
    ensures r.Err? ==> r.fault == TypeError
    ensures r.Ok? ==> r.value.lastMove == b.lastMove + 1
  {
    var g := Set(Set(b.grid, m.from, None), m.to, Some(p));
    match shape
    case Castle(side) =>
      if v == SchizochessPy then Err(TypeError)
      else
        var g' := Set(Set(g, Corner(side, p.color), None),
                      Coord(PassedFile(side), BackRank(p.color)), Some(Piece(p.color, Rook)));
        Ok(Board(g', b.lastMove + 1))
    case EnPassant(victim) => Ok(Board(Set(g, victim, None), b.lastMove + 1))
    case _ => Ok(Board(g, b.lastMove + 1))
  }

  /** The final `check_for_check` step: legal iff the mover is not in check afterwards. */
  function KingSafety(fuel: nat, v: Variant, b: Board, m: Move, p: Piece, shape: Shape): (r: Result<bool>)
    ensures r.Err? ==> EngineFault(r.fault)
    decreases fuel, 0
  {
    match Scratch(v, b, m, p, shape)
    case Err(e) => Err(e)
    case Ok(after) =>
      if fuel == 0 then Err(RecursionLimit)
      else match InCheck(fuel - 1, v, after, p.color)
        case Err(e) => Err(e)
        case Ok(checked) => Ok(!checked)
  }

  /** The square scanned at step k of a `for x in range(8): for y in range(8)` loop. */
  function SquareOf(k: int): Coord
    requires 0 <= k < 64
  {
    Coord(k / 8, k % 8)
  }

  /** is_in_check: whether some square holds a piece that can move onto a king of colour `c`. */
  function InCheck(fuel: nat, v: Variant, b: Board, c: Color): (r: Result<bool>)
    ensures r.Err? ==> EngineFault(r.fault)
    decreases fuel, 5
  {
    KingScan(fuel, v, b, c, 0)
  }

  /** The outer loops of is_in_check, from square k on. */
  function KingScan(fuel: nat, v: Variant, b: Board, c: Color, k: nat): (r: Result<bool>)
    requires k <= 64
    ensures r.Err? ==> EngineFault(r.fault)
    decreases fuel, 4, 64 - k
  {
    if k == 64 then Ok(false)
    else if At(b.grid, SquareOf(k)) == Some(Piece(c, King)) then
      match AttackScan(fuel, v, b, SquareOf(k), 0)
      case Err(e) => Err(e)
      case Ok(true) => Ok(true)
      case Ok(false) => KingScan(fuel, v, b, c, k + 1)
    else KingScan(fuel, v, b, c, k + 1)
  }

  /** The inner loops of is_in_check: probe every square from a on against the king. */
  function AttackScan(fuel: nat, v: Variant, b: Board, king: Coord, a: nat): (r: Result<bool>)
    requires a <= 64
    ensures r.Err? ==> EngineFault(r.fault)
    decreases fuel, 3, 64 - a
  {
    if a == 64 then Ok(false)
    else match IsLegal(fuel, v, b, Move(SquareOf(a), king), Probe)
      case Err(e) => Err(e)
      case Ok(true) => Ok(true)
      case Ok(false) => AttackScan(fuel, v, b, king, a + 1)
  }
}
