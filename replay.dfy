/**
  commit_moves: the record replayed onto the current board from the ply after `last_move`,
  as a function on values (ReplayFrom, Commit) and as the loop that updates a BoardState in
  place (CommitOn), proved to agree.
*/
module Replay {
  import opened Wrappers
  import opened Pieces
  import opened Boards
  import opened Legality
  import opened MovementFacts
  import opened KingFacts

  /** The board commit_moves leaves behind, and what it returned or raised. */
  datatype Applied = Applied(board: Board, outcome: Result<bool>)

  /** The loop's en passant test: a pawn leaving its file for an empty square. */
  predicate TakesEnPassant(b: Board, m: Move)
  {
    At(b.grid, m.from).Some? && At(b.grid, m.from).value.kind == Pawn
    && m.from.file != m.to.file && At(b.grid, m.to) == None
  }

  /** The loop's castle test: a king moving two files. */
  predicate MovesTwoFiles(b: Board, m: Move)
  {
    At(b.grid, m.from).Some? && At(b.grid, m.from).value.kind == King && Abs(m.to.file - m.from.file) == 2
  }

  /** The last three lines of the loop body: the destination gets what the origin holds, the
      origin is cleared, the ply advances. */
  function Finish(b: Board, m: Move): Applied
  {
    Applied(Board(Set(Set(b.grid, m.to, At(b.grid, m.from)), m.from, None), b.lastMove + 1), Ok(true))
  }

  /** What reading the kind of an empty origin raises: `.chessman` of None in schizochess.py,
      slicing None in chess.py. */
  function EmptyOriginFault(v: Variant): Fault
  {
    if v == SchizochessPy then AttributeError else TypeError
  }

  /** The loop body for one accepted move. An empty origin raises EmptyOriginFault; a two-file king move onto a file other than c or g raises KeyError;
      after clearing the rook's corner, schizochess.py raises TypeError where chess.py puts
      the rook on file d or f of the home rank. */
  function Apply(v: Variant, b: Board, m: Move): (r: Applied)
    ensures r.outcome != Ok(false)
    ensures r.board.lastMove == if r.outcome == Ok(true) then b.lastMove + 1 else b.lastMove
  {
    if At(b.grid, m.from).None? then Applied(b, Err(EmptyOriginFault(v)))
    else
      var p := At(b.grid, m.from).value;
      var g := if TakesEnPassant(b, m) then Set(b.grid, Coord(m.to.file, m.from.rank), None) else b.grid;
      if MovesTwoFiles(b, m) then
        if m.to.file != 2 && m.to.file != 6 then Applied(Board(g, b.lastMove), Err(KeyError))
        else
          var side := if m.to.file == 6 then Kingside else Queenside;
          var cleared := Set(g, Corner(side, p.color), None);
          if v == SchizochessPy then Applied(Board(cleared, b.lastMove), Err(TypeError))
          else Finish(Board(Set(cleared, Coord(PassedFile(side), BackRank(p.color)), Some(Piece(p.color, Rook))), b.lastMove), m)
      else Finish(Board(g, b.lastMove), m)
  }

  /** One iteration of the loop: the legality test when `check` is on, then the body. */
  function Step(v: Variant, check: bool, fuel: nat, b: Board, record: seq<Move>, m: Move): (r: Applied)
    ensures r.outcome == Ok(false) ==> check && r.board == b
    ensures r.board.lastMove == if r.outcome == Ok(true) then b.lastMove + 1 else b.lastMove
  {
    var legal := if check then IsLegal(fuel, v, b, m, Recorded(record)) else Ok(true);
    match legal
    case Err(e) => Applied(b, Err(e))
    case Ok(false) => Applied(b, Ok(false))
    case Ok(true) => Apply(v, b, m)
  }

  /** The loop over `todo`: the first illegal move returns False and an exception stops the
      loop where it is. */
  function ReplayFrom(v: Variant, check: bool, fuel: nat, b: Board, record: seq<Move>, todo: seq<Move>): Applied
    decreases |todo|
  {
    if todo == [] then Applied(b, Ok(true))
    else
      var step := Step(v, check, fuel, b, record, todo[0]);
      if step.outcome != Ok(true) then step else ReplayFrom(v, check, fuel, step.board, record, todo[1..])
  }

  /** commit_moves: `record[last_move + 1:]` replayed. */
  function Commit(v: Variant, check: bool, fuel: nat, b: Board, record: seq<Move>): Applied
  {
    ReplayFrom(v, check, fuel, b, record, PySliceFrom(record, b.lastMove + 1))
  }

  /** An ordinary accepted move: the piece lands on its destination, its origin is emptied,
      a pawn taken en passant disappears, the ply advances, and nothing else changes. */
  lemma ApplyMovesPiece(v: Variant, b: Board, m: Move)
    requires At(b.grid, m.from).Some? && !MovesTwoFiles(b, m) && m.from != m.to
    ensures Apply(v, b, m).outcome == Ok(true)
    ensures var after := Apply(v, b, m).board;
            after.lastMove == b.lastMove + 1
            && At(after.grid, m.to) == At(b.grid, m.from) && At(after.grid, m.from) == None
    ensures !TakesEnPassant(b, m) ==> SameExcept(Apply(v, b, m).board.grid, b.grid, {m.from, m.to})
    ensures TakesEnPassant(b, m) && m.from.rank != m.to.rank
            ==> At(Apply(v, b, m).board.grid, Coord(m.to.file, m.from.rank)) == None
                && SameExcept(Apply(v, b, m).board.grid, b.grid, {m.from, m.to, Coord(m.to.file, m.from.rank)})
  {
  }

  /** Any two-file king move the loop accepts, checked or not. Onto a file other than c or g
      it raises KeyError with the board untouched. Onto file c or g, schizochess.py empties
      the rook's corner and raises TypeError; chess.py, for a king not standing on that corner,
      moves the king and puts a rook of its colour on file d or f of its home rank, whatever
      the corner held. */
  lemma ApplyCastle(v: Variant, b: Board, m: Move)
    requires MovesTwoFiles(b, m)
    ensures m.to.file != 2 && m.to.file != 6 ==> Apply(v, b, m) == Applied(b, Err(KeyError))
    ensures var c := At(b.grid, m.from).value.color;
            var side := if m.to.file == 6 then Kingside else Queenside;
            var corner := Corner(side, c);
            var landing := Coord(PassedFile(side), BackRank(c));
            var after := Apply(v, b, m).board;
            (m.to.file == 2 || m.to.file == 6)
            ==> (v == SchizochessPy ==> Apply(v, b, m) == Applied(Board(Set(b.grid, corner, None), b.lastMove), Err(TypeError)))
                && (v == ChessPy && m.from != corner
                    ==> Apply(v, b, m).outcome == Ok(true) && after.lastMove == b.lastMove + 1
                        && At(after.grid, m.to) == At(b.grid, m.from) && At(after.grid, m.from) == None
                        && At(after.grid, corner) == None && At(after.grid, landing) == Some(Piece(c, Rook))
                        && SameExcept(after.grid, b.grid, {m.from, m.to, corner, landing}))
  {
  }

  /** A move from an empty square. Unchecked replay in schizochess.py reaches the loop body
      and raises AttributeError with the board untouched; checked replay, the only kind
      chess.py has, is stopped first by the legality test and answers False. */
  lemma EmptyOriginReplay(fuel: nat, b: Board, record: seq<Move>)
    requires var todo := PySliceFrom(record, b.lastMove + 1);
             todo != [] && At(b.grid, todo[0].from) == None
    ensures Apply(SchizochessPy, b, PySliceFrom(record, b.lastMove + 1)[0]) == Applied(b, Err(AttributeError))
    ensures Commit(SchizochessPy, false, fuel, b, record) == Applied(b, Err(AttributeError))
    ensures Commit(SchizochessPy, true, fuel, b, record) == Applied(b, Ok(false))
    ensures Commit(ChessPy, true, fuel, b, record) == Applied(b, Ok(false))
  {
    var m := PySliceFrom(record, b.lastMove + 1)[0];
    EarlyRejections(fuel, SchizochessPy, b, m, Recorded(record));
    EarlyRejections(fuel, ChessPy, b, m, Recorded(record));
  }

  /** Replaying `xs + ys` is replaying `xs` and, if that went through, `ys` from where it ended. */
  lemma {:induction false} ReplayConcat(v: Variant, check: bool, fuel: nat, b: Board, record: seq<Move>, xs: seq<Move>, ys: seq<Move>)
    ensures ReplayFrom(v, check, fuel, b, record, xs + ys)
            == var r := ReplayFrom(v, check, fuel, b, record, xs);
               if r.outcome == Ok(true) then ReplayFrom(v, check, fuel, r.board, record, ys) else r
    decreases |xs|
  {
    if xs != [] {
      assert (xs + ys)[0] == xs[0];
      assert (xs + ys)[1..] == xs[1..] + ys;
      var step := Step(v, check, fuel, b, record, xs[0]);
      if step.outcome == Ok(true) {
        ReplayConcat(v, check, fuel, step.board, record, xs[1..], ys);
      }
    } else {
      assert xs + ys == ys;
    }
  }

  /** A replay that goes through advances the ply once per move; any replay advances it at most
      that much. */
  lemma {:induction false} ReplayAdvances(v: Variant, check: bool, fuel: nat, b: Board, record: seq<Move>, todo: seq<Move>)
    ensures var r := ReplayFrom(v, check, fuel, b, record, todo);
            b.lastMove <= r.board.lastMove <= b.lastMove + |todo|
            && (r.outcome == Ok(true) ==> r.board.lastMove == b.lastMove + |todo|)
    decreases |todo|
  {
    if todo != [] {
      ReplayAdvances(v, check, fuel, Step(v, check, fuel, b, record, todo[0]).board, record, todo[1..]);
    }
  }

  /** The first illegal move ends a checked replay with False, keeping the moves before it. */
  lemma ReplayStopsAtFirstIllegal(v: Variant, fuel: nat, b: Board, record: seq<Move>, xs: seq<Move>, m: Move, ys: seq<Move>)
    requires ReplayFrom(v, true, fuel, b, record, xs).outcome == Ok(true)
    requires IsLegal(fuel, v, ReplayFrom(v, true, fuel, b, record, xs).board, m, Recorded(record)) == Ok(false)
    ensures ReplayFrom(v, true, fuel, b, record, xs + [m] + ys)
            == Applied(ReplayFrom(v, true, fuel, b, record, xs).board, Ok(false))
  {
    assert xs + [m] + ys == xs + ([m] + ys);
    ReplayConcat(v, true, fuel, b, record, xs, [m] + ys);
  }

  /** One pass of the loop body after the legality test, on the board in place. */
  method ApplyOn(v: Variant, board: BoardState, m: Move) returns (r: Result<bool>)
    modifies board
    ensures board.Snapshot() == Apply(v, old(board.Snapshot()), m).board
    ensures r == Apply(v, old(board.Snapshot()), m).outcome
  {
    var piece := board.Square(m.from);
    if piece.None? {
      return Err(EmptyOriginFault(v));
    }
    var p := piece.value;
    if p.kind == Pawn && m.from.file != m.to.file && board.Square(m.to) == None {
      board.SetSquare(Coord(m.to.file, m.from.rank), None);
    }
    if p.kind == King && Abs(m.from.file - m.to.file) == 2 {
      if m.to.file != 2 && m.to.file != 6 {
        return Err(KeyError);
      }
      var side := if m.to.file == 6 then Kingside else Queenside;
      board.SetSquare(Corner(side, p.color), None);
      if v == SchizochessPy {
        return Err(TypeError);
      }
      board.SetSquare(Coord(PassedFile(side), BackRank(p.color)), Some(Piece(p.color, Rook)));
    }
    board.SetSquare(m.to, board.Square(m.from));
    board.SetSquare(m.from, None);
    board.IncrementLastMove();
    return Ok(true);
  }

  /** A move the rules accept goes through the loop body in chess.py; in schizochess.py it does
      too unless it is a castle, which raises TypeError, and a castle is accepted there only
      with `check_for_check` off. */
  lemma LegalMoveApplies(fuel: nat, v: Variant, b: Board, m: Move, fl: Flags)
    requires IsLegal(fuel, v, b, m, fl) == Ok(true)
    ensures v == ChessPy ==> Apply(v, b, m).outcome == Ok(true)
    ensures v == SchizochessPy
            ==> Apply(v, b, m).outcome == if MovesTwoFiles(b, m) then Err(TypeError) else Ok(true)
    ensures fl.checkForCheck ==> Apply(v, b, m).outcome == Ok(true)
  {
    LegalSteps(fuel, v, b, m, fl);
    if MovesTwoFiles(b, m) {
      if !CastleAttempt(m) {
        KingSteps(fuel, v, b, m, fl);
      } else if v == SchizochessPy && fl.checkForCheck {
        SchizochessCastleNeverLegal(fuel, b, m, fl);
      }
    }
  }

  /** A checked replay raises only what the legality test raised, on the board where it
      stopped, for the move at the position the replay reached. */
  lemma {:induction false} CheckedReplayErrors(v: Variant, fuel: nat, b: Board, record: seq<Move>, todo: seq<Move>)
    ensures var r := ReplayFrom(v, true, fuel, b, record, todo);
            var j := r.board.lastMove - b.lastMove;
            r.outcome.Err? ==> 0 <= j < |todo| && IsLegal(fuel, v, r.board, todo[j], Recorded(record)) == r.outcome
    decreases |todo|
  {
    if todo != [] {
      var legal := IsLegal(fuel, v, b, todo[0], Recorded(record));
      if legal == Ok(true) {
        LegalMoveApplies(fuel, v, b, todo[0], Recorded(record));
        var next := Apply(v, b, todo[0]).board;
        assert next.lastMove == b.lastMove + 1;
        CheckedReplayErrors(v, fuel, next, record, todo[1..]);
        var r := ReplayFrom(v, true, fuel, next, record, todo[1..]);
        if r.outcome.Err? {
          assert todo[1..][r.board.lastMove - next.lastMove] == todo[r.board.lastMove - b.lastMove];
        }
      }
    }
  }

  /** The loop's first iteration, ending in `step`, decides the replay's result or hands it
      on to the rest of the moves. */
  lemma StepThenRest(v: Variant, check: bool, fuel: nat, b: Board, record: seq<Move>, todo: seq<Move>, step: Applied)
    requires todo != [] && step == Step(v, check, fuel, b, record, todo[0])
    ensures step.outcome != Ok(true) ==> ReplayFrom(v, check, fuel, b, record, todo) == step
    ensures step.outcome == Ok(true) ==> ReplayFrom(v, check, fuel, b, record, todo) == ReplayFrom(v, check, fuel, step.board, record, todo[1..])
  {
  }

  /** One iteration of the loop on the board in place, for the first move of `todo`: it
      either ends the replay with the replay's own result or leaves the rest of `todo` to do. */
  method StepOn(v: Variant, check: bool, fuel: nat, board: BoardState, record: seq<Move>, todo: seq<Move>) returns (r: Result<bool>)
    requires todo != []
    modifies board
    ensures r != Ok(true) ==> ReplayFrom(v, check, fuel, old(board.Snapshot()), record, todo) == Applied(board.Snapshot(), r)
    ensures r == Ok(true) ==> ReplayFrom(v, check, fuel, old(board.Snapshot()), record, todo)
                              == ReplayFrom(v, check, fuel, board.Snapshot(), record, todo[1..])
  {
    ghost var before := board.Snapshot();
    var m := todo[0];
    if check {
      var legal := IsLegal(fuel, v, board.Snapshot(), m, Recorded(record));
      if legal.Err? {
        r := Err(legal.fault);
      } else if !legal.value {
        r := Ok(false);
      } else {
        r := ApplyOn(v, board, m);
      }
    } else {
      r := ApplyOn(v, board, m);
    }
    StepThenRest(v, check, fuel, before, record, todo, Applied(board.Snapshot(), r));
  }

  /** commit_moves updating the board in place: the loop of either source file, the castle
      step selected by `v`. */
  method CommitOn(v: Variant, check: bool, fuel: nat, board: BoardState, record: seq<Move>) returns (r: Result<bool>)
    modifies board
    ensures var c := Commit(v, check, fuel, old(board.Snapshot()), record);
            r == c.outcome && board.Snapshot() == c.board
  {
    var todo := PySliceFrom(record, board.lastMove + 1);
    ghost var goal := ReplayFrom(v, check, fuel, board.Snapshot(), record, todo);
    var i := 0;
    while i < |todo|
      invariant 0 <= i <= |todo|
      invariant ReplayFrom(v, check, fuel, board.Snapshot(), record, todo[i..]) == goal
    {
      assert todo[i..][1..] == todo[i + 1..];
      r := StepOn(v, check, fuel, board, record, todo[i..]);
      if r != Ok(true) {
        return;
      }
      i := i + 1;
    }
    return Ok(true);
  }
}
