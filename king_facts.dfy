/**
  The king: its one-square step, the conditions of a castle, and the king-safety test that
  ends every legal move when `check_for_check` is on.
*/
module KingFacts {
  import opened Wrappers
  import opened Pieces
  import opened Boards
  import opened Legality
  import opened MovementFacts
  import opened CheckFacts

  /** A king move the engine treats as a castle attempt: along its rank, onto file c or g,
      from whatever file and rank it starts. */
  predicate CastleAttempt(m: Move)
  {
    m.to.rank == m.from.rank && (m.to.file == 2 || m.to.file == 6)
  }

  function CastleSide(m: Move): Side
  {
    if m.to.file == 6 then Kingside else Queenside
  }

  /** The square the king passes: file d or f on the move's rank. */
  function PassedSquare(m: Move): Coord
  {
    Coord(PassedFile(CastleSide(m)), m.to.rank)
  }

  /** Every other king move is a step of at most one square in any direction. */
  lemma KingSteps(fuel: nat, v: Variant, b: Board, m: Move, fl: Flags)
    requires At(b.grid, m.from).Some? && At(b.grid, m.from).value.kind == King && !CastleAttempt(m)
    ensures IsLegal(fuel, v, b, m, fl) == Ok(true)
            ==> Admissible(v, b, m, fl) && Abs(m.to.file - m.from.file) <= 1 && Abs(m.to.rank - m.from.rank) <= 1
    ensures !fl.checkForCheck
            ==> IsLegal(fuel, v, b, m, fl)
                == Ok(Admissible(v, b, m, fl) && Abs(m.to.file - m.from.file) <= 1 && Abs(m.to.rank - m.from.rank) <= 1)
  {
    var p := At(b.grid, m.from).value;
    var step := Abs(m.to.file - m.from.file) <= 1 && Abs(m.to.rank - m.from.rank) <= 1;
    assert Movement(fuel, v, b, m, fl, p) == KingMovement(fuel, v, b, m, fl, p)
           == Ok(if step then Plain else Rejected);
  }

  /** What a castle by the king of colour c needs, in the order the engine looks: fuel for the
      nested calls, the king not in check, the passed square empty, the king's step onto it
      legal on its own, an own rook in the corner, neither the king's square nor that corner
      the origin of a move already played, and, when the king-safety test runs, a version that
      can move the rook (chess.py) and a king not in check once king and rook have moved. */
  predicate CastleConditions(fuel: nat, v: Variant, b: Board, m: Move, fl: Flags, c: Color)
  {
    var corner := Corner(CastleSide(m), c);
    var castled := Scratch(v, b, m, Piece(c, King), Castle(CastleSide(m)));
    fuel > 0
    && InCheck(fuel - 1, v, b, c) == Ok(false)
    && At(b.grid, PassedSquare(m)) == None
    && IsLegal(fuel - 1, v, b, Move(m.from, PassedSquare(m)), Defaults) == Ok(true)
    && At(b.grid, corner) == Some(Piece(c, Rook))
    && !(fl.record.Some? && Touched(PySliceTo(fl.record.value, b.lastMove + 1), m.from, corner))
    && (fl.checkForCheck ==> castled.Ok? && InCheck(fuel - 1, v, castled.value, c) == Ok(false))
  }

  /** A castle attempt is legal exactly when it is admissible and meets CastleConditions; and a
      legal one always starts on file e, since the step onto file d or f must be legal too. */
  lemma CastleRules(fuel: nat, v: Variant, b: Board, m: Move, fl: Flags)
    requires At(b.grid, m.from).Some? && At(b.grid, m.from).value.kind == King && CastleAttempt(m)
    ensures IsLegal(fuel, v, b, m, fl) == Ok(true)
            <==> Admissible(v, b, m, fl) && CastleConditions(fuel, v, b, m, fl, At(b.grid, m.from).value.color)
    ensures IsLegal(fuel, v, b, m, fl) == Ok(true) ==> m.from.file == 4
  {
    var p := At(b.grid, m.from).value;
    assert p == Piece(p.color, King);
    if Admissible(v, b, m, fl) && CastleConditions(fuel, v, b, m, fl, p.color) {
      assert KingMovement(fuel, v, b, m, fl, p) == Ok(Castle(CastleSide(m)));
      assert Movement(fuel, v, b, m, fl, p) == Ok(Castle(CastleSide(m)));
    }
    if IsLegal(fuel, v, b, m, fl) == Ok(true) {
      LegalSteps(fuel, v, b, m, fl);
      assert Movement(fuel, v, b, m, fl, p) == Ok(Castle(CastleSide(m)));
      assert KingMovement(fuel, v, b, m, fl, p) == Ok(Castle(CastleSide(m)));
      assert IsLegal(fuel - 1, v, b, Move(m.from, PassedSquare(m)), Defaults) == Ok(true);
      KingSteps(fuel - 1, v, b, Move(m.from, PassedSquare(m)), Defaults);
      assert m.from != PassedSquare(m) && m.from != m.to;
    }
  }

  /** In schizochess.py no castle passes the king-safety test: moving the rook on the scratch
      board raises TypeError, so with `check_for_check` on (the default, and what
      GameInstance.move uses) every castle attempt is False or an exception. */
  lemma SchizochessCastleNeverLegal(fuel: nat, b: Board, m: Move, fl: Flags)
    requires At(b.grid, m.from).Some? && At(b.grid, m.from).value.kind == King && CastleAttempt(m)
    requires fl.checkForCheck
    ensures IsLegal(fuel, SchizochessPy, b, m, fl) != Ok(true)
  {
    CastleRules(fuel, SchizochessPy, b, m, fl);
  }

  /** Every piece on the grid has colour c. */
  ghost predicate OnlyColour(g: Grid, c: Color)
  {
    forall d: Coord :: At(g, d).Some? ==> At(g, d).value.color == c
  }

  /** A side is never in check while the board holds no enemy piece. */
  lemma NoEnemyNoCheck(fuel: nat, v: Variant, b: Board, c: Color)
    requires OnlyColour(b.grid, c)
    ensures InCheck(fuel, v, b, c) == Ok(false)
  {
    InCheckMeaning(fuel, v, b, c);
    forall k: Coord, a: Coord | KingOn(b, c, k) ensures Attack(fuel, v, b, a, k) == Ok(false) {
      EarlyRejections(fuel, v, b, Move(a, k), Probe);
    }
  }

  /** King e1 and rook h1 alone, white to move. */
  const LoneCastle: Board :=
    Board(Set(Set(EmptyGrid, Coord(4, 0), Some(Piece(White, King))), Coord(7, 0), Some(Piece(White, Rook))), -1)

  /** With king e1 and rook h1 alone, the king may step to f1. */
  lemma LoneCastleStep(fuel: nat, v: Variant)
    requires fuel >= 1
    ensures IsLegal(fuel, v, LoneCastle, Move(Coord(4, 0), Coord(5, 0)), Defaults) == Ok(true)
  {
    var b := LoneCastle;
    var step := Move(Coord(4, 0), Coord(5, 0));
    var king, rook := Some(Piece(White, King)), Some(Piece(White, Rook));
    forall d: Coord ensures At(b.grid, d) == if d == Coord(4, 0) then king else if d == Coord(7, 0) then rook else None {
      EmptyGridIsEmpty(d);
    }
    var after := Scratch(v, b, step, Piece(White, King), Plain).value;
    NoEnemyNoCheck(fuel - 1, v, after, White);
    assert Movement(fuel, v, b, step, Defaults, Piece(White, King)) == Ok(Plain);
  }

  /** With king e1 and rook h1 alone, castling kingside is legal in chess.py and raises
      TypeError in schizochess.py. */
  lemma LoneCastleOutcomes(fuel: nat)
    requires fuel >= 2
    ensures IsLegal(fuel, ChessPy, LoneCastle, Move(Coord(4, 0), Coord(6, 0)), Defaults) == Ok(true)
    ensures IsLegal(fuel, SchizochessPy, LoneCastle, Move(Coord(4, 0), Coord(6, 0)), Defaults) == Err(TypeError)
  {
    var b := LoneCastle;
    var king, rook := Some(Piece(White, King)), Some(Piece(White, Rook));
    forall d: Coord ensures At(b.grid, d) == if d == Coord(4, 0) then king else if d == Coord(7, 0) then rook else None {
      EmptyGridIsEmpty(d);
    }
    var m := Move(Coord(4, 0), Coord(6, 0));
    var step := Move(Coord(4, 0), Coord(5, 0));
    NoEnemyNoCheck(fuel - 1, ChessPy, b, White);
    NoEnemyNoCheck(fuel - 1, SchizochessPy, b, White);
    LoneCastleStep(fuel - 1, ChessPy);
    LoneCastleStep(fuel - 1, SchizochessPy);
    var castled := Scratch(ChessPy, b, m, Piece(White, King), Castle(Kingside)).value;
    NoEnemyNoCheck(fuel - 1, ChessPy, castled, White);
    assert Movement(fuel, ChessPy, b, m, Defaults, Piece(White, King)) == Ok(Castle(Kingside));
    assert Movement(fuel, SchizochessPy, b, m, Defaults, Piece(White, King)) == Ok(Castle(Kingside));
  }

  /** What a legal answer tells about the steps that produced it. */
  lemma LegalSteps(fuel: nat, v: Variant, b: Board, m: Move, fl: Flags)
    requires IsLegal(fuel, v, b, m, fl) == Ok(true)
    ensures Admissible(v, b, m, fl)
    ensures var p := At(b.grid, m.from).value;
            var s := Movement(fuel, v, b, m, fl, p);
            s.Ok? && s.value != Rejected
            && (s.value.Castle? ==> p.kind == King && CastleAttempt(m) && s.value.side == CastleSide(m))
            && (s.value.EnPassant? ==> p.kind == Pawn && s.value.victim == Coord(m.to.file, m.from.rank))
            && (fl.checkForCheck ==> Scratch(v, b, m, p, s.value).Ok? && fuel > 0
                                     && InCheck(fuel - 1, v, Scratch(v, b, m, p, s.value).value, p.color) == Ok(false))
  {
    var p := At(b.grid, m.from).value;
    var s := Movement(fuel, v, b, m, fl, p);
    if p.kind == Pawn {
      PawnRules(v, b, m, fl.record, p);
    } else if p.kind != King {
      RangedShapes(b, m, p.kind);
    }
  }

  /** The board the king-safety test of a legal move looked at. */
  function SafetyBoard(fuel: nat, v: Variant, b: Board, m: Move, fl: Flags): Board
    requires fl.checkForCheck && IsLegal(fuel, v, b, m, fl) == Ok(true)
  {
    LegalSteps(fuel, v, b, m, fl);
    var p := At(b.grid, m.from).value;
    Scratch(v, b, m, p, Movement(fuel, v, b, m, fl, p).value).value
  }

  /** The shape the movement rules found for a legal move. */
  function LegalShape(fuel: nat, v: Variant, b: Board, m: Move, fl: Flags): Shape
    requires IsLegal(fuel, v, b, m, fl) == Ok(true)
  {
    LegalSteps(fuel, v, b, m, fl);
    Movement(fuel, v, b, m, fl, At(b.grid, m.from).value).value
  }

  /** With `check_for_check` on, a legal move leaves no king of the mover's colour attacked on
      the board after the move: the piece on its destination, its origin empty, the pawn
      taken en passant removed, the castling rook moved from its corner to file d or f of its
      home rank (only chess.py gets this far), the ply advanced, and nothing else changed. */
  lemma LegalLeavesKingSafe(fuel: nat, v: Variant, b: Board, m: Move, fl: Flags)
    requires fl.checkForCheck && IsLegal(fuel, v, b, m, fl) == Ok(true)
    ensures fuel > 0
    ensures InCheck(fuel - 1, v, SafetyBoard(fuel, v, b, m, fl), At(b.grid, m.from).value.color) == Ok(false)
    ensures var after := SafetyBoard(fuel, v, b, m, fl);
            after.lastMove == b.lastMove + 1
            && At(after.grid, m.to) == At(b.grid, m.from) && At(after.grid, m.from) == None
    ensures LegalShape(fuel, v, b, m, fl) == Plain
            ==> SameExcept(SafetyBoard(fuel, v, b, m, fl).grid, b.grid, {m.from, m.to})
    ensures LegalShape(fuel, v, b, m, fl).EnPassant?
            ==> LegalShape(fuel, v, b, m, fl).victim == Coord(m.to.file, m.from.rank)
                && At(SafetyBoard(fuel, v, b, m, fl).grid, Coord(m.to.file, m.from.rank)) == None
                && SameExcept(SafetyBoard(fuel, v, b, m, fl).grid, b.grid, {m.from, m.to, Coord(m.to.file, m.from.rank)})
    ensures LegalShape(fuel, v, b, m, fl).Castle?
            ==> var c := At(b.grid, m.from).value.color;
                var side := LegalShape(fuel, v, b, m, fl).side;
                var landing := Coord(PassedFile(side), BackRank(c));
                v == ChessPy
                && At(SafetyBoard(fuel, v, b, m, fl).grid, Corner(side, c)) == None
                && At(SafetyBoard(fuel, v, b, m, fl).grid, landing) == Some(Piece(c, Rook))
                && SameExcept(SafetyBoard(fuel, v, b, m, fl).grid, b.grid, {m.from, m.to, Corner(side, c), landing})
  {
    LegalSteps(fuel, v, b, m, fl);
    var p := At(b.grid, m.from).value;
    var after := SafetyBoard(fuel, v, b, m, fl);
    var g := Set(Set(b.grid, m.from, None), m.to, Some(p));
    match LegalShape(fuel, v, b, m, fl)
    case Plain =>
      assert after.grid == g;
    case EnPassant(victim) =>
      assert after.grid == Set(g, victim, None);
    case Castle(side) =>
      CastleRules(fuel, v, b, m, fl);
      var landing := Coord(PassedFile(side), BackRank(p.color));
      assert after.grid == Set(Set(g, Corner(side, p.color), None), landing, Some(Piece(p.color, Rook)));
  }
}
