/**
  QuantumChessGame of schizochess.py: a list of universes, each a game, advanced together by a
  move or forked over every destination of a square, then thinned to one universe per board.
*/
module Multiverse {
  import opened Wrappers
  import opened Pieces
  import opened Boards
  import opened Legality
  import opened Replay
  import opened Schizochess

  /** The copies a loop of QuantumChessGame kept, given the calls it made in order: the
      successful ones in order, unless a call raised, which ends the loop with that exception. */
  function Survivors(cs: seq<Called>): (r: Result<seq<Timeline>>)
    ensures r.Ok? ==> |r.value| <= |cs|
    decreases |cs|
  {
    if cs == [] then Ok([])
    else match Survivors(cs[..|cs| - 1])
      case Err(e) => Err(e)
      case Ok(kept) =>
        var c := cs[|cs| - 1];
        if c.result.Err? then Err(c.result.fault)
        else if c.result == Ok(true) then Ok(kept + [c.after])
        else Ok(kept)
  }

  /** The calls of `move`: the move on a copy of each universe, in order. */
  function MoveCalls(ts: seq<Timeline>, m: Move): seq<Called>
  {
    seq(|ts|, i requires 0 <= i < |ts| => InstanceMove(ts[i], m))
  }

  /** The destination of the inner loops of `superposition` at step k: the outer loop variable
      is the first coordinate, the inner one the second. */
  function Destination(k: int): Coord
    requires 0 <= k < 64
  {
    Coord(k / 8, k % 8)
  }

  /** Step (x, y) of the inner loops is destination 8 x + y, the square (x, y). */
  lemma DestinationOf(x: int, y: int)
    requires 0 <= x < 8 && 0 <= y < 8
    ensures Destination(8 * x + y) == Coord(x, y)
  {
  }

  /** The calls the inner loops of `superposition` make for one universe: a move from `from`
      to each of the 64 destinations in order. */
  function UniverseCalls(t: Timeline, from: Coord): seq<Called>
  {
    seq(64, k requires 0 <= k < 64 => InstanceMove(t, Move(from, Destination(k))))
  }

  /** The calls of `superposition`: those of each universe in turn. */
  function ForkCalls(ts: seq<Timeline>, from: Coord): (cs: seq<Called>)
    ensures |cs| == 64 * |ts|
    decreases |ts|
  {
    if ts == [] then [] else ForkCalls(ts[..|ts| - 1], from) + UniverseCalls(ts[|ts| - 1], from)
  }

  /** Every call of `superposition` is a move from `from` in one of the universes. */
  lemma {:induction false} ForkCallsFrom(ts: seq<Timeline>, from: Coord)
    ensures forall c | c in ForkCalls(ts, from) ::
              exists t, k | t in ts && 0 <= k < 64 :: c == InstanceMove(t, Move(from, Destination(k)))
    decreases |ts|
  {
    if ts != [] {
      var n := |ts| - 1;
      ForkCallsFrom(ts[..n], from);
      forall c | c in ForkCalls(ts, from)
        ensures exists t, k | t in ts && 0 <= k < 64 :: c == InstanceMove(t, Move(from, Destination(k)))
      {
        if c in ForkCalls(ts[..n], from) {
          var t, k :| t in ts[..n] && 0 <= k < 64 && c == InstanceMove(t, Move(from, Destination(k)));
          assert t in ts;
        } else {
          var k :| 0 <= k < 64 && UniverseCalls(ts[n], from)[k] == c;
          assert ts[n] in ts && c == InstanceMove(ts[n], Move(from, Destination(k)));
        }
      }
    }
  }

  /** Running the calls of two loops one after the other: the first one's exception wins,
      otherwise the copies kept are those of the first followed by those of the second. */
  lemma {:induction false} SurvivorsConcat(xs: seq<Called>, ys: seq<Called>)
    ensures Survivors(xs + ys)
            == match Survivors(xs)
               case Err(e) => Err(e)
               case Ok(a) => match Survivors(ys) case Err(e) => Err(e) case Ok(b) => Ok(a + b)
    decreases |ys|
  {
    if ys == [] {
      assert xs + ys == xs;
      if Survivors(xs).Ok? {
        assert Survivors(xs).value + [] == Survivors(xs).value;
      }
    } else {
      var n := |ys| - 1;
      assert (xs + ys)[..|xs + ys| - 1] == xs + ys[..n];
      assert (xs + ys)[|xs + ys| - 1] == ys[n];
      SurvivorsConcat(xs, ys[..n]);
      if Survivors(xs).Ok? && Survivors(ys[..n]).Ok? {
        assert Survivors(xs).value + (Survivors(ys[..n]).value + [ys[n].after])
               == Survivors(xs).value + Survivors(ys[..n]).value + [ys[n].after];
      }
    }
  }

  /** Whether some universe of `ts` has board `g` (BoardState.__eq__ compares grids). */
  predicate HasBoard(ts: seq<Timeline>, g: Grid)
  {
    exists u | u in ts :: u.board.grid == g
  }

  /** cull_duplicate_states: the first universe of each board, in order. */
  function Dedup(ts: seq<Timeline>): (r: seq<Timeline>)
    ensures |r| <= |ts| && (ts != [] ==> r != [])
    decreases |ts|
  {
    if ts == [] then []
    else
      var d := Dedup(ts[..|ts| - 1]);
      if HasBoard(d, ts[|ts| - 1].board.grid) then d else d + [ts[|ts| - 1]]
  }

  /** Universe i is the first in `ts` with its board. */
  predicate FirstOfBoard(ts: seq<Timeline>, i: int)
    requires 0 <= i < |ts|
  {
    forall j | 0 <= j < i :: ts[j].board.grid != ts[i].board.grid
  }

  /** The universes among the first n that are the first with their board, in order: the
      reference the cull is compared with. */
  function Firsts(ts: seq<Timeline>, n: int): (r: seq<Timeline>)
    requires 0 <= n <= |ts|
    ensures |r| <= n && forall u | u in r :: u in ts[..n]
  {
    if n == 0 then []
    else Firsts(ts, n - 1) + if FirstOfBoard(ts, n - 1) then [ts[n - 1]] else []
  }

  /** What the game does with the survivors: none is an error, otherwise they are culled. */
  function Settle(next: Result<seq<Timeline>>, none: Fault): (r: Result<seq<Timeline>>)
    ensures r.Ok? ==> next.Ok? && 0 < |r.value| <= |next.value|
    ensures r.Err? ==> (next.Err? && r == next) || (next == Ok([]) && r == Err(none))
  {
    match next
    case Err(e) => Err(e)
    case Ok(ts) => if ts == [] then Err(none) else Ok(Dedup(ts))
  }

  /** The cull's universes all come from ts, and it keeps every board of ts. */
  lemma {:induction false} DedupBoards(ts: seq<Timeline>)
    ensures forall u | u in Dedup(ts) :: u in ts
    ensures forall g :: HasBoard(Dedup(ts), g) <==> HasBoard(ts, g)
    decreases |ts|
  {
    if ts != [] {
      var n := |ts| - 1;
      var p := ts[..n];
      DedupBoards(p);
      assert ts == p + [ts[n]];
      forall g ensures HasBoard(Dedup(ts), g) <==> HasBoard(ts, g) {
        if HasBoard(ts, g) && !HasBoard(p, g) {
          assert ts[n].board.grid == g;
        }
      }
    }
  }

  /** Some universe before position n has the board of universe n exactly when n is not the
      first with it. */
  lemma EarlierBoard(ts: seq<Timeline>, n: int)
    requires 0 <= n < |ts|
    ensures HasBoard(ts[..n], ts[n].board.grid) <==> !FirstOfBoard(ts, n)
  {
    if HasBoard(ts[..n], ts[n].board.grid) {
      var u :| u in ts[..n] && u.board.grid == ts[n].board.grid;
      var j :| 0 <= j < n && ts[..n][j] == u;
      assert ts[j].board.grid == ts[n].board.grid;
    }
    if !FirstOfBoard(ts, n) {
      var j :| 0 <= j < n && ts[j].board.grid == ts[n].board.grid;
      assert ts[..n][j] == ts[j];
    }
  }

  /** The cull keeps a universe exactly when it is the first with its board, in the order of
      the list. */
  lemma {:induction false} DedupIsFirsts(ts: seq<Timeline>)
    ensures Dedup(ts) == Firsts(ts, |ts|)
    decreases |ts|
  {
    if ts != [] {
      var n := |ts| - 1;
      var p := ts[..n];
      DedupIsFirsts(p);
      FirstsPrefix(ts, n, n);
      DedupBoards(p);
      EarlierBoard(ts, n);
    }
  }

  /** Firsts only looks at the first n universes. */
  lemma {:induction false} FirstsPrefix(ts: seq<Timeline>, k: int, n: int)
    requires 0 <= n <= k <= |ts|
    ensures Firsts(ts[..k], n) == Firsts(ts, n)
    decreases n
  {
    if n > 0 {
      FirstsPrefix(ts, k, n - 1);
      assert FirstOfBoard(ts[..k], n - 1) == FirstOfBoard(ts, n - 1);
    }
  }

  /** No two universes left by the cull share a board. */
  lemma {:induction false} DedupDistinct(ts: seq<Timeline>)
    ensures forall i, j | 0 <= i < j < |Dedup(ts)| :: Dedup(ts)[i].board.grid != Dedup(ts)[j].board.grid
    decreases |ts|
  {
    if ts != [] {
      var p := ts[..|ts| - 1];
      DedupDistinct(p);
      var d := Dedup(p);
      if !HasBoard(d, ts[|ts| - 1].board.grid) {
        var e := d + [ts[|ts| - 1]];
        forall i, j | 0 <= i < j < |e| ensures e[i].board.grid != e[j].board.grid {
          if j == |d| {
            assert e[i] in d;
          } else {
            assert e[i] == d[i] && e[j] == d[j];
          }
        }
      }
    }
  }

  /** A list whose boards are already distinct is left as it is. */
  lemma {:induction false} DedupOfDistinct(ts: seq<Timeline>)
    requires forall i, j | 0 <= i < j < |ts| :: ts[i].board.grid != ts[j].board.grid
    ensures Dedup(ts) == ts
    decreases |ts|
  {
    if ts != [] {
      var p := ts[..|ts| - 1];
      DedupOfDistinct(p);
      forall u | u in p ensures u.board.grid != ts[|ts| - 1].board.grid {
        var i :| 0 <= i < |p| && p[i] == u;
        assert ts[i] == u;
      }
      assert p + [ts[|ts| - 1]] == ts;
    }
  }

  /** Culling twice is culling once. */
  lemma DedupIdempotent(ts: seq<Timeline>)
    ensures Dedup(Dedup(ts)) == Dedup(ts)
  {
    DedupDistinct(ts);
    DedupOfDistinct(Dedup(ts));
  }

  /** An exception raised part-way stays the outcome whatever calls follow. */
  lemma {:induction false} SurvivorsErrorSticks(cs: seq<Called>, k: int)
    requires 0 <= k <= |cs| && Survivors(cs[..k]).Err?
    ensures Survivors(cs) == Survivors(cs[..k])
    decreases |cs| - k
  {
    if k < |cs| {
      assert cs[..k + 1][..k] == cs[..k];
      SurvivorsErrorSticks(cs, k + 1);
    } else {
      assert cs[..k] == cs;
    }
  }

  /** The loop raises exactly when some call raised, and then with the first such exception;
      otherwise it keeps exactly the successful copies, never more than there were calls. */
  lemma {:induction false} SurvivorsMeaning(cs: seq<Called>)
    ensures Survivors(cs).Err? <==> exists i | 0 <= i < |cs| :: cs[i].result.Err?
    ensures Survivors(cs).Err?
            ==> exists i | 0 <= i < |cs| :: cs[i].result == Err(Survivors(cs).fault)
                                           && forall j | 0 <= j < i :: cs[j].result.Ok?
    ensures Survivors(cs).Ok?
            ==> |Survivors(cs).value| <= |cs|
                && (forall u | u in Survivors(cs).value :: Called(u, Ok(true)) in cs)
                && (forall c | c in cs && c.result == Ok(true) :: c.after in Survivors(cs).value)
    decreases |cs|
  {
    if cs != [] {
      var n := |cs| - 1;
      var p := cs[..n];
      SurvivorsMeaning(p);
      assert forall i | 0 <= i < n :: p[i] == cs[i];
      assert cs == p + [cs[n]];
      if Survivors(p).Ok? && cs[n].result.Err? {
        assert forall j | 0 <= j < n :: cs[j].result.Ok?;
      }
    }
  }

  /** Every universe that survives a move is a committed game whose record gained exactly that
      move, provided every universe was committed before. */
  lemma MoveSurvivorsCommitted(ts: seq<Timeline>, m: Move)
    requires forall t | t in ts :: Committed(t)
    ensures Survivors(MoveCalls(ts, m)).Ok? ==>
              forall u | u in Survivors(MoveCalls(ts, m)).value ::
                Committed(u) && exists t | t in ts :: u.record == t.record + [m]
  {
    var cs := MoveCalls(ts, m);
    SurvivorsMeaning(cs);
    if Survivors(cs).Ok? {
      forall u | u in Survivors(cs).value
        ensures Committed(u) && exists t | t in ts :: u.record == t.record + [m]
      {
        var i :| 0 <= i < |cs| && cs[i] == Called(u, Ok(true));
        InstanceMoveOutcomes(ts[i], m);
      }
    }
  }

  /** After a fork of committed universes, every survivor is committed, its record ends with a
      move from the forked square, and that square is empty on its board. */
  lemma ForkSurvivors(ts: seq<Timeline>, from: Coord)
    requires forall t | t in ts :: Committed(t)
    ensures Survivors(ForkCalls(ts, from)).Ok? ==>
              forall u | u in Survivors(ForkCalls(ts, from)).value ::
                Committed(u) && |u.record| > 0 && u.record[|u.record| - 1].from == from
                && At(u.board.grid, from) == None
  {
    var cs := ForkCalls(ts, from);
    SurvivorsMeaning(cs);
    ForkCallsFrom(ts, from);
    if Survivors(cs).Ok? {
      forall u | u in Survivors(cs).value
        ensures Committed(u) && |u.record| > 0 && u.record[|u.record| - 1].from == from
                && At(u.board.grid, from) == None
      {
        var t, k :| t in ts && 0 <= k < 64 && Called(u, Ok(true)) == InstanceMove(t, Move(from, Destination(k)));
        InstanceMoveOutcomes(t, Move(from, Destination(k)));
      }
    }
  }

  /** A fork that raised for the first universes raises the same for all of them. */
  lemma SurvivorsErrorSticksCalls(ts: seq<Timeline>, k: int, from: Coord)
    requires 0 <= k <= |ts| && Survivors(ForkCalls(ts[..k], from)).Err?
    ensures Survivors(ForkCalls(ts, from)) == Survivors(ForkCalls(ts[..k], from))
    decreases |ts| - k
  {
    if k < |ts| {
      assert ts[..k + 1][..k] == ts[..k];
      SurvivorsConcat(ForkCalls(ts[..k], from), UniverseCalls(ts[k], from));
      SurvivorsErrorSticksCalls(ts, k + 1, from);
    } else {
      assert ts[..k] == ts;
    }
  }

  /** The inner loops of `superposition` for one universe: a copy tries each destination, the
      first coordinate in the outer loop; the successful copies are kept in order and an
      exception ends the loops. */
  method ForkUniverse(t: Timeline, from: Coord) returns (r: Result<seq<Timeline>>)
    ensures r == Survivors(UniverseCalls(t, from))
  {
    ghost var cs := UniverseCalls(t, from);
    var kept: seq<Timeline> := [];
    var x := 0;
    while x < 8
      invariant 0 <= x <= 8
      invariant Survivors(cs[..8 * x]) == Ok(kept)
    {
      var y := 0;
      while y < 8
        invariant 0 <= y <= 8
        invariant Survivors(cs[..8 * x + y]) == Ok(kept)
      {
        ghost var j := 8 * x + y;
        DestinationOf(x, y);
        assert cs[..j + 1][..j] == cs[..j] && cs[..j + 1][j] == cs[j];
        var c := InstanceMove(t, Move(from, Coord(x, y)));
        if c.result.Err? {
          SurvivorsErrorSticks(cs, j + 1);
          return Err(c.result.fault);
        }
        if c.result.value {
          kept := kept + [c.after];
        }
        y := y + 1;
      }
      x := x + 1;
    }
    assert cs[..64] == cs;
    return Ok(kept);
  }

  /** The superposed game: every universe advanced together (QuantumChessGame). */
  class QuantumChessGame {
    var instances: seq<Timeline>

    /** QuantumChessGame(): one universe, a new game. */
    constructor ()
      ensures instances == [NewTimeline]
    {
      instances := [NewTimeline];
    }

    /** move: the copies on which the move succeeds replace the universes and are culled; if
        a universe raises, or none succeeds, the call raises and the universes stay as they
        were. */
    method Move(m: Move) returns (r: Result<()>)
      modifies this
      ensures var s := Settle(Survivors(MoveCalls(old(instances), m)), NoLegalUniverse);
              (s.Err? ==> r == Err(s.fault) && instances == old(instances))
              && (s.Ok? ==> r == Ok(()) && instances == s.value)
    {
      ghost var cs := MoveCalls(instances, m);
      var next: seq<Timeline> := [];
      var i := 0;
      while i < |instances|
        invariant 0 <= i <= |instances| && instances == old(instances)
        invariant Survivors(cs[..i]) == Ok(next)
      {
        assert cs[..i + 1][..i] == cs[..i] && cs[..i + 1][i] == cs[i];
        var c := InstanceMove(instances[i], m);
        if c.result.Err? {
          SurvivorsErrorSticks(cs, i + 1);
          return Err(c.result.fault);
        }
        if c.result.value {
          next := next + [c.after];
        }
        i := i + 1;
      }
      assert cs[..i] == cs;
      if next == [] {
        return Err(NoLegalUniverse);
      }
      instances := next;
      CullDuplicateStates();
      return Ok(());
    }

    /** superposition: every universe tries every move from `from`; the successful copies
        replace the universes and are culled, and if a universe raises or none succeeds the
        universes stay as they were. */
    method Superposition(from: Coord) returns (r: Result<()>)
      modifies this
      ensures var s := Settle(Survivors(ForkCalls(old(instances), from)), NoValidMoves);
              (s.Err? ==> r == Err(s.fault) && instances == old(instances))
              && (s.Ok? ==> r == Ok(()) && instances == s.value)
    {
      var next: seq<Timeline> := [];
      var i := 0;
      while i < |instances|
        invariant 0 <= i <= |instances| && instances == old(instances)
        invariant Survivors(ForkCalls(instances[..i], from)) == Ok(next)
      {
        assert instances[..i + 1][..i] == instances[..i];
        ghost var done := ForkCalls(instances[..i], from);
        var forks := ForkUniverse(instances[i], from);
        SurvivorsConcat(done, UniverseCalls(instances[i], from));
        if forks.Err? {
          SurvivorsErrorSticksCalls(instances, i + 1, from);
          return Err(forks.fault);
        }
        next := next + forks.value;
        i := i + 1;
      }
      assert instances[..i] == instances;
      if next == [] {
        return Err(NoValidMoves);
      }
      instances := next;
      CullDuplicateStates();
      return Ok(());
    }

    /** cull_duplicate_states: keeps the first universe of each board. */
    method CullDuplicateStates()
      modifies this
      ensures instances == Dedup(old(instances))
    {
      var kept: seq<Timeline> := [];
      var i := 0;
      while i < |instances|
        invariant 0 <= i <= |instances|
        invariant kept == Dedup(instances[..i])
      {
        assert instances[..i + 1][..i] == instances[..i];
        var seen := false;
        var j := 0;
        while j < |kept|
          invariant 0 <= j <= |kept|
          invariant seen <==> exists u | u in kept[..j] :: u.board.grid == instances[i].board.grid
        {
          assert kept[..j + 1] == kept[..j] + [kept[j]];
          seen := seen || BoardEquals(kept[j].board, instances[i].board);
          j := j + 1;
        }
        assert kept[..j] == kept;
        if !seen {
          kept := kept + [instances[i]];
        }
        i := i + 1;
      }
      assert instances[..i] == instances;
      instances := kept;
    }
  }
}
