/**
  The game layer of schizochess.py: one game (GameInstance) as a record of moves and the
  board it has been replayed onto, and the algebraic-coordinate parser.
*/
module Schizochess {
  import opened Wrappers
  import opened Pieces
  import opened Boards
  import opened Legality
  import opened MovementFacts
  import opened KingFacts
  import opened Replay

  /** A game as a value: what deepcopy hands to each universe of a QuantumChessGame. */
  datatype Timeline = Timeline(record: seq<Move>, board: Board)

  /** GameInstance(): no moves, the standard starting position, nothing played yet. */
  const NewTimeline: Timeline := Timeline([], InitialBoard)

  /** Every recorded move has been played onto the board. */
  predicate Committed(t: Timeline)
  {
    t.board.lastMove == |t.record| - 1
  }

  /** The game after a call, and what the call returned or raised. */
  datatype Called = Called(after: Timeline, result: Result<bool>)

  /** GameInstance.move: refuse a game with uncommitted moves, test the move with the default
      flags and no record, and for a legal move append it and replay without testing. */
  function InstanceMove(t: Timeline, m: Move): Called
  {
    if !Committed(t) then Called(t, Err(UncommittedMoves))
    else match IsLegal(RecursionBudget, SchizochessPy, t.board, m, Defaults)
      case Err(e) => Called(t, Err(e))
      case Ok(false) => Called(t, Ok(false))
      case Ok(true) =>
        var logged := t.record + [m];
        var c := Commit(SchizochessPy, false, RecursionBudget, t.board, logged);
        Called(Timeline(logged, c.board), if c.outcome.Err? then c.outcome else Ok(true))
  }

  /** What GameInstance.move promises. A game with uncommitted moves raises and is left alone.
      Otherwise the call returns or raises exactly what the legality test did; an illegal move
      or an exception leaves record and board alone; a legal move is never a castle, is
      appended as the only new entry, is played onto the board (the piece moves, a pawn taken
      en passant is removed, nothing else changes) and leaves every move committed. */
  lemma InstanceMoveOutcomes(t: Timeline, m: Move)
    ensures !Committed(t) ==> InstanceMove(t, m) == Called(t, Err(UncommittedMoves))
    ensures Committed(t) ==>
      var legal := IsLegal(RecursionBudget, SchizochessPy, t.board, m, Defaults);
      var r := InstanceMove(t, m);
      r.result == legal
      && (legal != Ok(true) ==> r.after == t)
      && (legal == Ok(true)
          ==> !MovesTwoFiles(t.board, m)
              && r.after.record == t.record + [m] && Committed(r.after)
              && r.after.board.lastMove == t.board.lastMove + 1
              && At(r.after.board.grid, m.to) == At(t.board.grid, m.from)
              && At(r.after.board.grid, m.from) == None
              && (!TakesEnPassant(t.board, m) ==> SameExcept(r.after.board.grid, t.board.grid, {m.from, m.to}))
              && (TakesEnPassant(t.board, m)
                  ==> SameExcept(r.after.board.grid, t.board.grid, {m.from, m.to, Coord(m.to.file, m.from.rank)})))
  {
    if Committed(t) && IsLegal(RecursionBudget, SchizochessPy, t.board, m, Defaults) == Ok(true) {
      var logged := t.record + [m];
      assert PySliceFrom(logged, t.board.lastMove + 1) == [m];
      LegalMoveApplies(RecursionBudget, SchizochessPy, t.board, m, Defaults);
      LegalSteps(RecursionBudget, SchizochessPy, t.board, m, Defaults);
      ApplyMovesPiece(SchizochessPy, t.board, m);
      assert ReplayFrom(SchizochessPy, false, RecursionBudget, t.board, logged, [m])
             == Apply(SchizochessPy, t.board, m);
    }
  }

  /** A committed game stays committed whatever move it is asked to make. */
  lemma MoveKeepsCommitted(t: Timeline, m: Move)
    requires Committed(t)
    ensures Committed(InstanceMove(t, m).after)
  {
    InstanceMoveOutcomes(t, m);
  }

  /** One game, updated in place (GameInstance). */
  class GameInstance {
    var record: seq<Move>
    var currentBoard: BoardState

    function Value(): Timeline
      reads this, currentBoard
    {
      Timeline(record, currentBoard.Snapshot())
    }

    /** GameInstance(record=…, current_board=…); with no arguments, NewTimeline. */
    constructor (record: seq<Move>, start: Board)
      ensures Value() == Timeline(record, start) && fresh(currentBoard)
    {
      this.record := record;
      currentBoard := new BoardState(start.grid, start.lastMove);
    }

    /** log_move: appends to the record; the board is not touched. */
    method LogMove(m: Move)
      modifies this
      ensures record == old(record) + [m] && currentBoard == old(currentBoard)
    {
      record := record + [m];
    }

    /** commit_moves(check_for_legality=…): replays the uncommitted part of the record. */
    method CommitMoves(checkLegality: bool) returns (r: Result<bool>)
      modifies currentBoard
      ensures var c := Commit(SchizochessPy, checkLegality, RecursionBudget, old(currentBoard.Snapshot()), record);
              r == c.outcome && currentBoard.Snapshot() == c.board
    {
      r := CommitOn(SchizochessPy, checkLegality, RecursionBudget, currentBoard, record);
    }

    /** move */
    method Move(m: Move) returns (r: Result<bool>)
      modifies this, currentBoard
      ensures currentBoard == old(currentBoard)
      ensures Value() == InstanceMove(old(Value()), m).after
      ensures r == InstanceMove(old(Value()), m).result
    {
      if currentBoard.lastMove != |record| - 1 {
        return Err(UncommittedMoves);
      }
      var legal := IsLegal(RecursionBudget, SchizochessPy, currentBoard.Snapshot(), m, Defaults);
      if legal.Err? {
        return Err(legal.fault);
      }
      if !legal.value {
        return Ok(false);
      }
      LogMove(m);
      r := CommitMoves(false);
      if r.Ok? {
        r := Ok(true);
      }
    }
  }

  /** The file a letter a–h names, lower case only. */
  function FileLetter(ch: char): Option<Idx>
  {
    if 'a' <= ch <= 'h' then Some(ch as int - 'a' as int) else None
  }

  /** The rank a digit 1–8 names. */
  function RankDigit(ch: char): Option<Idx>
  {
    if '1' <= ch <= '8' then Some(ch as int - '1' as int) else None
  }

  /** The value the last character of `s` that `key` recognises gives, if any. */
  function LastKey(s: string, key: char -> Option<Idx>): Option<Idx>
  {
    if s == [] then None
    else if key(s[|s| - 1]).Some? then key(s[|s| - 1])
    else LastKey(s[..|s| - 1], key)
  }

  /** The last recognised character decides: `LastKey` finds a character of `s` that `key`
      recognises, with none after it, and is None only when there is no such character. */
  lemma {:induction false} LastKeyMeaning(s: string, key: char -> Option<Idx>)
    ensures LastKey(s, key).None? <==> forall i | 0 <= i < |s| :: key(s[i]).None?
    ensures LastKey(s, key).Some?
            ==> exists i | 0 <= i < |s| :: key(s[i]) == LastKey(s, key)
                                          && forall j | i < j < |s| :: key(s[j]).None?
    decreases |s|
  {
    if s != [] {
      var n := |s| - 1;
      var p := s[..n];
      LastKeyMeaning(p, key);
      assert forall i | 0 <= i < n :: s[i] == p[i];
      if key(s[n]).None? && LastKey(s, key).Some? {
        var i :| 0 <= i < n && key(p[i]) == LastKey(p, key) && forall j | i < j < n :: key(p[j]).None?;
        assert key(s[i]) == LastKey(s, key) && forall j | i < j < |s| :: key(s[j]).None?;
      }
    }
  }

  /** Characters appended later win: text after `s` decides unless it has no recognised
      character. */
  lemma {:induction false} LastKeyAppend(s: string, t: string, key: char -> Option<Idx>)
    ensures LastKey(s + t, key) == if LastKey(t, key).Some? then LastKey(t, key) else LastKey(s, key)
    decreases |t|
  {
    if t == [] {
      assert s + t == s;
    } else {
      var n := |t| - 1;
      assert (s + t)[..|s + t| - 1] == s + t[..n];
      assert (s + t)[|s + t| - 1] == t[n];
      LastKeyAppend(s, t[..n], key);
    }
  }

  /** The two-character algebraic name of a square, such as "e4". */
  function AlgebraicName(c: Coord): string
  {
    [('a' as int + c.file) as char, ('1' as int + c.rank) as char]
  }

  /** parse_algebraic_coordinate: every character is looked at in turn, a digit 1–8 setting the
      rank and a letter a–h the file, so the last of each wins; either may stay None. */
  method ParseAlgebraic(s: string) returns (file: Option<Idx>, rank: Option<Idx>)
    ensures file == LastKey(s, FileLetter) && rank == LastKey(s, RankDigit)
  {
    file, rank := None, None;
    var i := 0;
    while i < |s|
      invariant 0 <= i <= |s|
      invariant file == LastKey(s[..i], FileLetter) && rank == LastKey(s[..i], RankDigit)
    {
      assert s[..i + 1][..i] == s[..i] && s[..i + 1][i] == s[i];
      if RankDigit(s[i]).Some? {
        rank := RankDigit(s[i]);
      } else if FileLetter(s[i]).Some? {
        file := FileLetter(s[i]);
      }
      i := i + 1;
    }
    assert s[..i] == s;
  }

  /** The parser reads back the square an algebraic name was made from. */
  lemma AlgebraicRoundTrip(c: Coord)
    ensures LastKey(AlgebraicName(c), FileLetter) == Some(c.file)
    ensures LastKey(AlgebraicName(c), RankDigit) == Some(c.rank)
  {
    var s := AlgebraicName(c);
    assert s[..1][..0] == [];
    assert LastKey(s, FileLetter) == LastKey(s[..1], FileLetter);
  }
}
