/**
  What the legality engine decides, restated square by square: the early rejections, the path
  loops of the sliding pieces against "every square in between is empty", the pawn rules,
  and the king's step and castle conditions.
*/
module MovementFacts {
  import opened Wrappers
  import opened Pieces
  import opened Boards
  import opened Legality

  /** The checks every move passes before its movement rules are looked at: a piece on the
      origin, of the side to move unless out-of-turn moves are allowed, a destination other
      than the origin, and no piece of the mover's own colour on the destination. */
  predicate Admissible(v: Variant, b: Board, m: Move, fl: Flags)
  {
    At(b.grid, m.from).Some?
    && (fl.allowOutOfTurn || CurrentTurn(b.lastMove) == At(b.grid, m.from).value.color)
    && m.from != m.to
    && !(At(b.grid, m.to).Some? && At(b.grid, m.to).value.color == At(b.grid, m.from).value.color)
  }

  /** The four early rejections, and that nothing else can be legal. A move onto its own
      square is rejected even where `allow_moves_in_place` is honoured, because the piece then
      "captures" a piece of its own colour. */
  lemma EarlyRejections(fuel: nat, v: Variant, b: Board, m: Move, fl: Flags)
    ensures At(b.grid, m.from) == None ==> IsLegal(fuel, v, b, m, fl) == Ok(false)
    ensures At(b.grid, m.from).Some? && !fl.allowOutOfTurn
            && CurrentTurn(b.lastMove) != At(b.grid, m.from).value.color
            ==> IsLegal(fuel, v, b, m, fl) == Ok(false)
    ensures m.from == m.to ==> IsLegal(fuel, v, b, m, fl) == Ok(false)
    ensures At(b.grid, m.from).Some? && At(b.grid, m.to).Some?
            && At(b.grid, m.to).value.color == At(b.grid, m.from).value.color
            ==> IsLegal(fuel, v, b, m, fl) == Ok(false)
    ensures IsLegal(fuel, v, b, m, fl) == Ok(true) ==> Admissible(v, b, m, fl)
  {
  }

  /** The square a path loop looks at on its step k. */
  function Probed(g: Grid, from: Coord, dx: Dir, dy: Dir, k: int): Occupant
    requires 1 <= k <= 7
    requires dx > 0 ==> from.file + k <= 7
    requires dy > 0 ==> from.rank + k <= 7
  {
    PyAt(g, from.file + Offset(dx, k), from.rank + Offset(dy, k))
  }

  /** The path loop succeeds exactly when every square it looks at is empty. */
  lemma {:induction false} ScanClearAll(g: Grid, from: Coord, dx: Dir, dy: Dir, i: int, n: int)
    requires 1 <= i && n <= 8
    requires dx > 0 ==> from.file + n - 1 <= 7
    requires dy > 0 ==> from.rank + n - 1 <= 7
    ensures ScanClear(g, from, dx, dy, i, n) <==> forall k | i <= k < n :: Probed(g, from, dx, dy, k) == None
    decreases n - i
  {
    if i < n {
      ScanClearAll(g, from, dx, dy, i + 1, n);
      assert ScanClear(g, from, dx, dy, i, n)
             == (Probed(g, from, dx, dy, i) == None && ScanClear(g, from, dx, dy, i + 1, n));
    }
  }

  predicate StrictlyBetween(a: int, x: int, b: int)
  {
    Min(a, b) < x < Max(a, b)
  }

  /** Every square strictly between the ends of a move along a file is empty. */
  ghost predicate FilePathEmpty(g: Grid, m: Move)
  {
    forall c: Coord :: c.file == m.from.file && StrictlyBetween(m.from.rank, c.rank, m.to.rank)
      ==> At(g, c) == None
  }

  /** Every square strictly between the ends of a move along a rank is empty. */
  ghost predicate RankPathEmpty(g: Grid, m: Move)
  {
    forall c: Coord :: c.rank == m.from.rank && StrictlyBetween(m.from.file, c.file, m.to.file)
      ==> At(g, c) == None
  }

  /** Every square strictly between the ends of a diagonal move is empty. */
  ghost predicate DiagonalPathEmpty(g: Grid, m: Move)
  {
    forall c: Coord ::
      Abs(c.file - m.from.file) == Abs(c.rank - m.from.rank)
      && StrictlyBetween(m.from.file, c.file, m.to.file)
      && StrictlyBetween(m.from.rank, c.rank, m.to.rank)
      ==> At(g, c) == None
  }

  /** What the loop for a move along a rank looks at: the |dfile|-1 squares on the origin's
      rank counted from the origin toward file a, continuing from file h once file a is
      passed. For a move toward file a these are the squares in between; for a move toward
      file h they are not. */
  ghost predicate ScannedRankEmpty(g: Grid, m: Move)
  {
    forall c: Coord :: c.rank == m.from.rank && 1 <= (m.from.file - c.file) % 8 < Abs(m.to.file - m.from.file)
      ==> At(g, c) == None
  }

  /** Along a file the rook and queen loop is the intended one. */
  lemma FileScan(g: Grid, m: Move)
    requires m.from.file == m.to.file
    ensures OrthogonalClear(g, m) <==> FilePathEmpty(g, m)
  {
    var n := Abs(m.to.rank - m.from.rank);
    var s := DirTo(m.from.rank, m.to.rank);
    if n != 0 {
      ScanClearAll(g, m.from, 0, s, 1, n);
      if OrthogonalClear(g, m) {
        forall c: Coord | c.file == m.from.file && StrictlyBetween(m.from.rank, c.rank, m.to.rank)
          ensures At(g, c) == None
        {
          var k := Abs(c.rank - m.from.rank);
          assert Probed(g, m.from, 0, s, k) == At(g, c);
        }
      }
      if FilePathEmpty(g, m) {
        forall k | 1 <= k < n ensures Probed(g, m.from, 0, s, k) == None {
          var c := Coord(m.from.file, m.from.rank + Offset(s, k));
          assert Probed(g, m.from, 0, s, k) == At(g, c);
        }
      }
    }
  }

  /** Counting back from file `f` to file `c`, wrapping past file a, takes (f - c) % 8 steps. */
  lemma BackSteps(f: Idx, c: Idx)
    ensures (f - c) % 8 == if c <= f then f - c else f - c + 8
  {
  }

  /** Stepping back k files from `f` with wrap-around and then counting back gives k again. */
  lemma BackStepsInverse(f: Idx, k: int)
    requires 1 <= k <= 7
    ensures (f - Wrap(f - k)) % 8 == k
  {
    BackSteps(f, Wrap(f - k));
  }

  /** Along a rank the loop looks at the squares of ScannedRankEmpty. */
  lemma RankScan(g: Grid, m: Move)
    requires m.from.rank == m.to.rank
    ensures OrthogonalClear(g, m) <==> ScannedRankEmpty(g, m)
  {
    var n := Abs(m.to.file - m.from.file);
    if n != 0 {
      assert DirTo(m.from.rank, m.to.rank) == -1;
      ScanClearAll(g, m.from, -1, 0, 1, n);
      if OrthogonalClear(g, m) {
        forall c: Coord | c.rank == m.from.rank && 1 <= (m.from.file - c.file) % 8 < n
          ensures At(g, c) == None
        {
          var k := (m.from.file - c.file) % 8;
          BackSteps(m.from.file, c.file);
          assert Wrap(m.from.file - k) == c.file;
          assert Probed(g, m.from, -1, 0, k) == At(g, c);
        }
      }
      if ScannedRankEmpty(g, m) {
        forall k | 1 <= k < n ensures Probed(g, m.from, -1, 0, k) == None {
          var c := Coord(Wrap(m.from.file - k), m.from.rank);
          BackStepsInverse(m.from.file, k);
          assert Probed(g, m.from, -1, 0, k) == At(g, c);
        }
      }
    }
  }

  /** Toward file a the scanned squares are exactly the squares in between. */
  lemma RankScanTowardFileA(g: Grid, m: Move)
    requires m.from.rank == m.to.rank && m.to.file < m.from.file
    ensures ScannedRankEmpty(g, m) <==> RankPathEmpty(g, m)
  {
    forall c: Coord | c.rank == m.from.rank
      ensures 1 <= (m.from.file - c.file) % 8 < Abs(m.to.file - m.from.file)
              <==> StrictlyBetween(m.from.file, c.file, m.to.file)
    {
      BackSteps(m.from.file, c.file);
    }
  }

  /** Toward file h the loop looks the wrong way: a rook on a1 reaches c1 over a piece on b1,
      and a piece on h1 blocks it. */
  lemma RankScanTowardFileH()
    ensures var g := Set(Set(EmptyGrid, Coord(0, 0), Some(Piece(White, Rook))),
                         Coord(1, 0), Some(Piece(White, Knight)));
            IsLegal(0, ChessPy, Board(g, -1), Move(Coord(0, 0), Coord(2, 0)), Probe) == Ok(true)
    ensures var g := Set(Set(EmptyGrid, Coord(0, 0), Some(Piece(White, Rook))),
                         Coord(7, 0), Some(Piece(White, Knight)));
            IsLegal(0, ChessPy, Board(g, -1), Move(Coord(0, 0), Coord(2, 0)), Probe) == Ok(false)
  {
    var g1 := Set(Set(EmptyGrid, Coord(0, 0), Some(Piece(White, Rook))), Coord(1, 0), Some(Piece(White, Knight)));
    EmptyGridIsEmpty(Coord(7, 0));
    EmptyGridIsEmpty(Coord(2, 0));
    assert PyAt(g1, -1, 0) == At(g1, Coord(7, 0)) == None;
    var g2 := Set(Set(EmptyGrid, Coord(0, 0), Some(Piece(White, Rook))), Coord(7, 0), Some(Piece(White, Knight)));
    assert PyAt(g2, -1, 0) == At(g2, Coord(7, 0)) != None;
  }

  /** The square k steps from the origin of a diagonal move toward its destination. */
  function DiagonalStep(m: Move, k: int): Coord
    requires Abs(m.to.file - m.from.file) == Abs(m.to.rank - m.from.rank)
    requires 0 <= k <= Abs(m.to.file - m.from.file)
  {
    Coord(m.from.file + Offset(DirTo(m.from.file, m.to.file), k),
          m.from.rank + Offset(DirTo(m.from.rank, m.to.rank), k))
  }

  /** The squares strictly between the ends of a diagonal move are its steps 1 .. n-1. */
  lemma DiagonalSteps(m: Move, c: Coord)
    requires Abs(m.to.file - m.from.file) == Abs(m.to.rank - m.from.rank)
    requires Abs(c.file - m.from.file) == Abs(c.rank - m.from.rank)
    requires StrictlyBetween(m.from.file, c.file, m.to.file)
    requires StrictlyBetween(m.from.rank, c.rank, m.to.rank)
    ensures 1 <= Abs(c.file - m.from.file) < Abs(m.to.file - m.from.file)
    ensures DiagonalStep(m, Abs(c.file - m.from.file)) == c
  {
  }

  /** The bishop and queen diagonal loop is the intended one. */
  lemma DiagonalScan(g: Grid, m: Move)
    requires Abs(m.to.file - m.from.file) == Abs(m.to.rank - m.from.rank)
    ensures DiagonalClear(g, m) <==> DiagonalPathEmpty(g, m)
  {
    var n := Abs(m.to.file - m.from.file);
    var sx, sy := DirTo(m.from.file, m.to.file), DirTo(m.from.rank, m.to.rank);
    ScanClearAll(g, m.from, sx, sy, 1, n);
    forall k | 1 <= k < n ensures Probed(g, m.from, sx, sy, k) == At(g, DiagonalStep(m, k)) {
    }
    if DiagonalClear(g, m) {
      forall c: Coord | Abs(c.file - m.from.file) == Abs(c.rank - m.from.rank)
                        && StrictlyBetween(m.from.file, c.file, m.to.file)
                        && StrictlyBetween(m.from.rank, c.rank, m.to.rank)
        ensures At(g, c) == None
      {
        DiagonalSteps(m, c);
      }
    }
    if DiagonalPathEmpty(g, m) {
      forall k | 1 <= k < n ensures At(g, DiagonalStep(m, k)) == None {
        var c := DiagonalStep(m, k);
        assert Abs(c.file - m.from.file) == Abs(c.rank - m.from.rank) == k;
      }
    }
  }

  /** The rook, knight, bishop and queen shapes of Article 3 of the FIDE Laws of Chess, with
      the rook's scan along a rank as written (ScannedRankEmpty). */
  ghost predicate RangedRule(g: Grid, m: Move, k: Kind)
  {
    var dx, dy := Abs(m.to.file - m.from.file), Abs(m.to.rank - m.from.rank);
    match k
    case Rook => (dx == 0 && FilePathEmpty(g, m)) || (dy == 0 && ScannedRankEmpty(g, m))
    case Knight => (dx == 1 && dy == 2) || (dx == 2 && dy == 1)
    case Bishop => dx == dy && DiagonalPathEmpty(g, m)
    case Queen =>
      (dx == dy && DiagonalPathEmpty(g, m)) || (dx == 0 && FilePathEmpty(g, m))
      || (dy == 0 && ScannedRankEmpty(g, m))
    case _ => false
  }

  /** The engine's rook, knight, bishop and queen branches decide exactly RangedRule. */
  lemma RangedShapes(b: Board, m: Move, k: Kind)
    requires k != Pawn && k != King
    ensures RangedMovement(b, m, k) != Rejected <==> RangedRule(b.grid, m, k)
    ensures RangedMovement(b, m, k) in {Rejected, Plain}
  {
    if m.from.file == m.to.file {
      FileScan(b.grid, m);
    }
    if m.from.rank == m.to.rank {
      RankScan(b.grid, m);
    }
    if Abs(m.to.file - m.from.file) == Abs(m.to.rank - m.from.rank) {
      DiagonalScan(b.grid, m);
    }
  }

  /** For a rook, knight, bishop or queen: a move is legal only if admissible and of the right
      shape, and without the king-safety test that is also enough. */
  lemma RangedLegality(fuel: nat, v: Variant, b: Board, m: Move, fl: Flags)
    requires At(b.grid, m.from).Some? && At(b.grid, m.from).value.kind !in {Pawn, King}
    ensures IsLegal(fuel, v, b, m, fl) == Ok(true)
            ==> Admissible(v, b, m, fl) && RangedRule(b.grid, m, At(b.grid, m.from).value.kind)
    ensures !fl.checkForCheck
            ==> IsLegal(fuel, v, b, m, fl)
                == Ok(Admissible(v, b, m, fl) && RangedRule(b.grid, m, At(b.grid, m.from).value.kind))
  {
    var p := At(b.grid, m.from).value;
    RangedShapes(b, m, p.kind);
    assert Movement(fuel, v, b, m, fl, p) == Ok(RangedMovement(b, m, p.kind));
  }

  /** A pawn's straight move: onto an empty square, one rank forward, or two from its home
      rank when the square passed over is empty too. */
  predicate PawnPushAllowed(g: Grid, m: Move, c: Color)
  {
    m.to.file == m.from.file
    && At(g, m.to) == None
    && (Advance(c, m) == 1
        || (Advance(c, m) == 2 && m.from.rank == PawnHome(c)
            && At(g, Coord(m.from.file, m.from.rank + Forward(c))) == None))
  }

  /** A pawn's diagonal step: one file aside and one rank forward. */
  predicate PawnDiagonal(m: Move, c: Color)
  {
    Abs(m.to.file - m.from.file) == 1 && Advance(c, m) == 1
  }

  /** The en passant conditions: a diagonal step onto an empty square of the en passant rank,
      an enemy pawn beside the origin on the destination's file, and, when a record is given,
      the record entry at index `last_move` (Python indexing) ending on that pawn's square. */
  predicate EnPassantAllowed(b: Board, m: Move, record: Option<seq<Move>>, c: Color)
  {
    PawnDiagonal(m, c) && At(b.grid, m.to) == None && m.to.rank == EnPassantRank(c)
    && At(b.grid, Coord(m.to.file, m.from.rank)) == Some(Piece(Opponent(c), Pawn))
    && (record.Some? ==> -|record.value| <= b.lastMove < |record.value|
                         && PyIndex(record.value, b.lastMove).to == Coord(m.to.file, m.from.rank))
  }

  /** The pawn rules of Article 3.7 of the FIDE Laws of Chess as the engine decides them, and
      the two ways they fail: in schizochess.py an en passant attempt with nothing behind the
      destination reads `.full_name` of None, and a record too short for index `last_move`
      raises IndexError. */
  lemma PawnRules(v: Variant, b: Board, m: Move, record: Option<seq<Move>>, p: Piece)
    requires p.kind == Pawn
    ensures m.to.file == m.from.file
            ==> PawnMovement(v, b, m, record, p) == Ok(if PawnPushAllowed(b.grid, m, p.color) then Plain else Rejected)
    ensures PawnDiagonal(m, p.color) && At(b.grid, m.to) != None ==> PawnMovement(v, b, m, record, p) == Ok(Plain)
    ensures m.to.file != m.from.file && !PawnDiagonal(m, p.color) ==> PawnMovement(v, b, m, record, p) == Ok(Rejected)
    ensures EnPassantAllowed(b, m, record, p.color)
            ==> PawnMovement(v, b, m, record, p) == Ok(EnPassant(Coord(m.to.file, m.from.rank)))
    ensures PawnDiagonal(m, p.color) && At(b.grid, m.to) == None && !EnPassantAllowed(b, m, record, p.color)
            ==> PawnMovement(v, b, m, record, p) in {Ok(Rejected), Err(AttributeError), Err(IndexError)}
    ensures PawnMovement(v, b, m, record, p) == Err(AttributeError)
            <==> v == SchizochessPy && PawnDiagonal(m, p.color) && At(b.grid, m.to) == None
                 && m.to.rank == EnPassantRank(p.color) && At(b.grid, Coord(m.to.file, m.from.rank)) == None
    ensures PawnMovement(v, b, m, record, p) == Err(IndexError)
            <==> PawnDiagonal(m, p.color) && At(b.grid, m.to) == None && m.to.rank == EnPassantRank(p.color)
                 && At(b.grid, Coord(m.to.file, m.from.rank)) == Some(Piece(Opponent(p.color), Pawn))
                 && record.Some? && !(-|record.value| <= b.lastMove < |record.value|)
  {
    if m.to.file != m.from.file && PawnDiagonal(m, p.color) {
      assert m.to.rank - Forward(p.color) == m.from.rank;
    }
  }
}
