/**
  is_in_check: what its loops compute, that more fuel never changes an answer already reached,
  and a position where it and is_legal_chess_move call each other without end.
*/
module CheckFacts {
  import opened Wrappers
  import opened Pieces
  import opened Boards
  import opened Legality

  /** Square k holds a king of colour c. */
  predicate KingOn(b: Board, c: Color, k: Coord)
  {
    At(b.grid, k) == Some(Piece(c, King))
  }

  /** The probe is_in_check makes: whether the piece on a may move onto k, ignoring whose turn
      it is and without the king-safety test. */
  function Attack(fuel: nat, v: Variant, b: Board, a: Coord, k: Coord): Result<bool>
  {
    IsLegal(fuel, v, b, Move(a, k), Probe)
  }

  /** Every square is visited by the scans: square c at step 8*file + rank. */
  lemma SquareOfIndex(c: Coord)
    ensures 0 <= 8 * c.file + c.rank < 64 && SquareOf(8 * c.file + c.rank) == c
  {
  }

  /** The inner loops from step a on: False iff no probe succeeds; True only after a probe that
      succeeds; an exception only one of the probes raised. */
  lemma {:induction false} AttackScanSteps(fuel: nat, v: Variant, b: Board, king: Coord, a: nat)
    requires a <= 64
    ensures AttackScan(fuel, v, b, king, a) == Ok(false)
            <==> forall j | a <= j < 64 :: Attack(fuel, v, b, SquareOf(j), king) == Ok(false)
    ensures AttackScan(fuel, v, b, king, a) == Ok(true)
            ==> exists j | a <= j < 64 :: Attack(fuel, v, b, SquareOf(j), king) == Ok(true)
    ensures AttackScan(fuel, v, b, king, a).Err?
            ==> exists j | a <= j < 64 :: Attack(fuel, v, b, SquareOf(j), king) == Err(AttackScan(fuel, v, b, king, a).fault)
    decreases 64 - a
  {
    if a < 64 {
      AttackScanSteps(fuel, v, b, king, a + 1);
      assert Attack(fuel, v, b, SquareOf(a), king) == IsLegal(fuel, v, b, Move(SquareOf(a), king), Probe);
    }
  }

  /** The inner loops, square by square. */
  lemma AttackScanMeaning(fuel: nat, v: Variant, b: Board, king: Coord)
    ensures AttackScan(fuel, v, b, king, 0) == Ok(false)
            <==> forall a: Coord :: Attack(fuel, v, b, a, king) == Ok(false)
    ensures AttackScan(fuel, v, b, king, 0) == Ok(true)
            ==> exists a: Coord :: Attack(fuel, v, b, a, king) == Ok(true)
    ensures AttackScan(fuel, v, b, king, 0).Err?
            ==> exists a: Coord :: Attack(fuel, v, b, a, king) == Err(AttackScan(fuel, v, b, king, 0).fault)
  {
    AttackScanSteps(fuel, v, b, king, 0);
    if forall j | 0 <= j < 64 :: Attack(fuel, v, b, SquareOf(j), king) == Ok(false) {
      forall a: Coord ensures Attack(fuel, v, b, a, king) == Ok(false) {
        SquareOfIndex(a);
      }
    }
  }

  /** The outer loops from step k on. */
  lemma {:induction false} KingScanSteps(fuel: nat, v: Variant, b: Board, c: Color, k: nat)
    requires k <= 64
    ensures KingScan(fuel, v, b, c, k) == Ok(false)
            <==> forall j | k <= j < 64 :: KingOn(b, c, SquareOf(j)) ==> AttackScan(fuel, v, b, SquareOf(j), 0) == Ok(false)
    ensures KingScan(fuel, v, b, c, k) == Ok(true)
            ==> exists j | k <= j < 64 :: KingOn(b, c, SquareOf(j)) && AttackScan(fuel, v, b, SquareOf(j), 0) == Ok(true)
    ensures KingScan(fuel, v, b, c, k).Err?
            ==> exists j | k <= j < 64 :: KingOn(b, c, SquareOf(j))
                  && AttackScan(fuel, v, b, SquareOf(j), 0) == Err(KingScan(fuel, v, b, c, k).fault)
    decreases 64 - k
  {
    if k < 64 {
      KingScanSteps(fuel, v, b, c, k + 1);
    }
  }

  /** is_in_check is False iff no piece can move onto a king of that colour, True only when
      one can, and raises only what one of those probes raised. */
  lemma InCheckMeaning(fuel: nat, v: Variant, b: Board, c: Color)
    ensures InCheck(fuel, v, b, c) == Ok(false)
            <==> forall k: Coord, a: Coord :: KingOn(b, c, k) ==> Attack(fuel, v, b, a, k) == Ok(false)
    ensures InCheck(fuel, v, b, c) == Ok(true)
            ==> exists k: Coord, a: Coord :: KingOn(b, c, k) && Attack(fuel, v, b, a, k) == Ok(true)
    ensures InCheck(fuel, v, b, c).Err?
            ==> exists k: Coord, a: Coord :: KingOn(b, c, k) && Attack(fuel, v, b, a, k) == Err(InCheck(fuel, v, b, c).fault)
  {
    KingScanSteps(fuel, v, b, c, 0);
    forall k: Coord
      ensures AttackScan(fuel, v, b, k, 0) == Ok(false) <==> forall a: Coord :: Attack(fuel, v, b, a, k) == Ok(false)
      ensures AttackScan(fuel, v, b, k, 0) == Ok(true) ==> exists a: Coord :: Attack(fuel, v, b, a, k) == Ok(true)
      ensures AttackScan(fuel, v, b, k, 0).Err?
              ==> exists a: Coord :: Attack(fuel, v, b, a, k) == Err(AttackScan(fuel, v, b, k, 0).fault)
    {
      AttackScanMeaning(fuel, v, b, k);
    }
    if forall j | 0 <= j < 64 :: KingOn(b, c, SquareOf(j)) ==> AttackScan(fuel, v, b, SquareOf(j), 0) == Ok(false) {
      forall k: Coord | KingOn(b, c, k) ensures AttackScan(fuel, v, b, k, 0) == Ok(false) {
        SquareOfIndex(k);
      }
    }
    if forall k: Coord, a: Coord :: KingOn(b, c, k) ==> Attack(fuel, v, b, a, k) == Ok(false) {
      forall j | 0 <= j < 64 && KingOn(b, c, SquareOf(j)) ensures AttackScan(fuel, v, b, SquareOf(j), 0) == Ok(false) {
      }
    }
  }

  /** Without a king of that colour on the board nobody is in check. */
  lemma NoKingNoCheck(fuel: nat, v: Variant, b: Board, c: Color)
    requires forall k: Coord :: !KingOn(b, c, k)
    ensures InCheck(fuel, v, b, c) == Ok(false)
  {
    InCheckMeaning(fuel, v, b, c);
  }

  // More fuel never changes an answer that did not run out of fuel. The lemmas follow the
  // call structure of the engine, with the same termination measure.

  lemma IsLegalFuel(f: nat, g: nat, v: Variant, b: Board, m: Move, fl: Flags)
    requires f <= g && IsLegal(f, v, b, m, fl) != Err(RecursionLimit)
    ensures IsLegal(g, v, b, m, fl) == IsLegal(f, v, b, m, fl)
    decreases f, 2
  {
    var piece := At(b.grid, m.from);
    if piece.Some? {
      var p := piece.value;
      var captured := At(b.grid, m.to);
      if (fl.allowOutOfTurn || CurrentTurn(b.lastMove) == p.color)
         && ((v == SchizochessPy && fl.allowInPlace) || m.from != m.to)
         && !(captured.Some? && captured.value.color == p.color)
      {
        MovementFuel(f, g, v, b, m, fl, p);
        var s := Movement(f, v, b, m, fl, p);
        if s.Ok? && s.value != Rejected && fl.checkForCheck {
          KingSafetyFuel(f, g, v, b, m, p, s.value);
        }
      }
    }
  }

  lemma MovementFuel(f: nat, g: nat, v: Variant, b: Board, m: Move, fl: Flags, p: Piece)
    requires f <= g && Movement(f, v, b, m, fl, p) != Err(RecursionLimit)
    ensures Movement(g, v, b, m, fl, p) == Movement(f, v, b, m, fl, p)
    decreases f, 1
  {
    if p.kind == King {
      KingMovementFuel(f, g, v, b, m, fl, p);
    }
  }

  lemma KingMovementFuel(f: nat, g: nat, v: Variant, b: Board, m: Move, fl: Flags, p: Piece)
    requires f <= g && KingMovement(f, v, b, m, fl, p) != Err(RecursionLimit)
    ensures KingMovement(g, v, b, m, fl, p) == KingMovement(f, v, b, m, fl, p)
    decreases f, 0
  {
    if m.to.rank == m.from.rank && (m.to.file == 2 || m.to.file == 6) {
      var side := if m.to.file == 6 then Kingside else Queenside;
      var passed := Coord(PassedFile(side), m.to.rank);
      InCheckFuel(f - 1, g - 1, v, b, p.color);
      if InCheck(f - 1, v, b, p.color) == Ok(false) && At(b.grid, passed) == None {
        IsLegalFuel(f - 1, g - 1, v, b, Move(m.from, passed), Defaults);
      }
    }
  }

  lemma KingSafetyFuel(f: nat, g: nat, v: Variant, b: Board, m: Move, p: Piece, shape: Shape)
    requires f <= g && KingSafety(f, v, b, m, p, shape) != Err(RecursionLimit)
    ensures KingSafety(g, v, b, m, p, shape) == KingSafety(f, v, b, m, p, shape)
    decreases f, 0
  {
    var after := Scratch(v, b, m, p, shape);
    if after.Ok? {
      InCheckFuel(f - 1, g - 1, v, after.value, p.color);
    }
  }

  lemma InCheckFuel(f: nat, g: nat, v: Variant, b: Board, c: Color)
    requires f <= g && InCheck(f, v, b, c) != Err(RecursionLimit)
    ensures InCheck(g, v, b, c) == InCheck(f, v, b, c)
    decreases f, 5
  {
    KingScanFuel(f, g, v, b, c, 0);
  }

  lemma KingScanFuel(f: nat, g: nat, v: Variant, b: Board, c: Color, k: nat)
    requires k <= 64
    requires f <= g && KingScan(f, v, b, c, k) != Err(RecursionLimit)
    ensures KingScan(g, v, b, c, k) == KingScan(f, v, b, c, k)
    decreases f, 4, 64 - k
  {
    if k < 64 {
      if KingOn(b, c, SquareOf(k)) {
        AttackScanFuel(f, g, v, b, SquareOf(k), 0);
        if AttackScan(f, v, b, SquareOf(k), 0) == Ok(false) {
          KingScanFuel(f, g, v, b, c, k + 1);
        }
      } else {
        KingScanFuel(f, g, v, b, c, k + 1);
      }
    }
  }

  lemma AttackScanFuel(f: nat, g: nat, v: Variant, b: Board, king: Coord, a: nat)
    requires a <= 64
    requires f <= g && AttackScan(f, v, b, king, a) != Err(RecursionLimit)
    ensures AttackScan(g, v, b, king, a) == AttackScan(f, v, b, king, a)
    decreases f, 3, 64 - a
  {
    if a < 64 {
      IsLegalFuel(f, g, v, b, Move(SquareOf(a), king), Probe);
      if IsLegal(f, v, b, Move(SquareOf(a), king), Probe) == Ok(false) {
        AttackScanFuel(f, g, v, b, king, a + 1);
      }
    }
  }

  /** Skipping steps of the outer loops that find no king of that colour. */
  lemma {:induction false} KingScanSkip(fuel: nat, v: Variant, b: Board, c: Color, k: nat, k2: nat)
    requires k <= k2 <= 64
    requires forall j | k <= j < k2 :: !KingOn(b, c, SquareOf(j))
    ensures KingScan(fuel, v, b, c, k) == KingScan(fuel, v, b, c, k2)
    decreases k2 - k
  {
    if k < k2 {
      KingScanSkip(fuel, v, b, c, k + 1, k2);
    }
  }

  /** Skipping steps of the inner loops whose probe fails. */
  lemma {:induction false} AttackScanSkip(fuel: nat, v: Variant, b: Board, king: Coord, a: nat, a2: nat)
    requires a <= a2 <= 64
    requires forall j | a <= j < a2 :: Attack(fuel, v, b, SquareOf(j), king) == Ok(false)
    ensures AttackScan(fuel, v, b, king, a) == AttackScan(fuel, v, b, king, a2)
    decreases a2 - a
  {
    if a < a2 {
      assert Attack(fuel, v, b, SquareOf(a), king) == Ok(false);
      AttackScanSkip(fuel, v, b, king, a + 1, a2);
    }
  }

  /** A white king on c1, a black king on g1 and nothing else. */
  const FacingKings: Board :=
    Board(Set(Set(EmptyGrid, Coord(2, 0), Some(Piece(White, King))), Coord(6, 0), Some(Piece(Black, King))), -1)

  lemma FacingKingsSquares(c: Coord)
    ensures At(FacingKings.grid, c)
            == if c == Coord(2, 0) then Some(Piece(White, King))
               else if c == Coord(6, 0) then Some(Piece(Black, King))
               else None
  {
    EmptyGridIsEmpty(c);
  }

  /** On FacingKings is_in_check never returns, however deep the recursion may go: probing
      either king from the other is a castle-shaped king move, whose first step asks whether
      the prober is in check, which probes back. */
  lemma {:induction false} FacingKingsNeverReturn(fuel: nat, v: Variant)
    ensures InCheck(fuel, v, FacingKings, White) == Err(RecursionLimit)
    ensures InCheck(fuel, v, FacingKings, Black) == Err(RecursionLimit)
    decreases fuel
  {
    var b := FacingKings;
    var wk, bk := Coord(2, 0), Coord(6, 0);
    forall c: Coord
      ensures At(b.grid, c) == if c == wk then Some(Piece(White, King))
                               else if c == bk then Some(Piece(Black, King)) else None
    {
      FacingKingsSquares(c);
    }
    if fuel > 0 {
      FacingKingsNeverReturn(fuel - 1, v);
    }
    assert KingMovement(fuel, v, b, Move(bk, wk), Probe, Piece(Black, King)) == Err(RecursionLimit);
    assert Movement(fuel, v, b, Move(bk, wk), Probe, Piece(Black, King)) == Err(RecursionLimit);
    assert Attack(fuel, v, b, bk, wk) == Err(RecursionLimit);
    assert KingMovement(fuel, v, b, Move(wk, bk), Probe, Piece(White, King)) == Err(RecursionLimit);
    assert Movement(fuel, v, b, Move(wk, bk), Probe, Piece(White, King)) == Err(RecursionLimit);
    assert Attack(fuel, v, b, wk, bk) == Err(RecursionLimit);
    assert SquareOf(16) == wk && SquareOf(48) == bk;

    // White: the first white king is at step 16; its probes fail up to step 48, the black king.
    KingScanSkip(fuel, v, b, White, 0, 16);
    forall j | 0 <= j < 48 ensures Attack(fuel, v, b, SquareOf(j), wk) == Ok(false) {
      assert At(b.grid, SquareOf(j)) == None || SquareOf(j) == wk;
    }
    AttackScanSkip(fuel, v, b, wk, 0, 48);

    // Black: the black king is at step 48; its probes fail up to step 16, the white king.
    KingScanSkip(fuel, v, b, Black, 0, 48);
    forall j | 0 <= j < 16 ensures Attack(fuel, v, b, SquareOf(j), bk) == Ok(false) {
      assert At(b.grid, SquareOf(j)) == None;
    }
    AttackScanSkip(fuel, v, b, bk, 0, 16);
  }
}
