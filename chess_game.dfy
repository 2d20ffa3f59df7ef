/**
  The game layer of chess.py: coordinates written as text or as pairs, and a game that logs
  parsed moves and replays them with the legality test always on.
*/
module ChessGame {
  import opened Wrappers
  import opened Pieces
  import opened Boards
  import opened Legality
  import opened Replay

  /** What parse_coordinate is handed: a string such as "f5", or a pair of numbers. */
  datatype CoordInput = Text(s: string) | Pair(x: int, y: int)

  /** The column a letter a–h names, in either case (`.lower()` and the columns table). */
  function Column(ch: char): Option<Idx>
  {
    if 'a' <= ch <= 'h' then Some(ch as int - 'a' as int)
    else if 'A' <= ch <= 'H' then Some(ch as int - 'A' as int)
    else None
  }

  /** `int(ch)` for one character: a decimal digit, or None where int() raises. */
  function Digit(ch: char): Option<int>
  {
    if '0' <= ch <= '9' then Some(ch as int - '0' as int) else None
  }

  /** parse_coordinate: a string gives its first character's column and its second
      character's digit minus one, the rest being ignored; a pair comes back as it is. Any
      failure on the way (too short, a letter outside a–h, a non-digit) is ValueError. */
  function ParseCoordinate(c: CoordInput): (r: Result<(int, int)>)
    ensures c.Pair? ==> r == Ok((c.x, c.y))
    ensures c.Text? && r.Ok? ==> 0 <= r.value.0 <= 7 && -1 <= r.value.1 <= 8
    ensures r.Err? ==> r.fault == ValueError
  {
    match c
    case Pair(x, y) => Ok((x, y))
    case Text(s) =>
      if |s| < 2 || Column(s[0]).None? || Digit(s[1]).None? then Err(ValueError)
      else Ok((Column(s[0]).value, Digit(s[1]).value - 1))
  }

  /** The name of a square in chess.py's own spelling ("h1" for the white rook's corner on the
      king side), the letter in lower or upper case. */
  function SquareName(c: Coord, upper: bool): string
  {
    [((if upper then 'A' else 'a') as int + c.file) as char, ('1' as int + c.rank) as char]
  }

  /** Parsing a square's name gives that square back, whatever the letter's case, and
      anything written after the name is ignored. */
  lemma ParseSquareName(c: Coord, upper: bool, rest: string)
    ensures ParseCoordinate(Text(SquareName(c, upper) + rest)) == Ok((c.file, c.rank))
  {
    var s := SquareName(c, upper) + rest;
    assert s[0] == SquareName(c, upper)[0] && s[1] == SquareName(c, upper)[1];
  }

  /** A string parses exactly when it starts with a letter a–h (either case) and a digit, and
      a result on the board is the square those two characters name. */
  lemma ParseTextCases(s: string)
    ensures ParseCoordinate(Text(s)).Ok?
            <==> (|s| >= 2 && (('a' <= s[0] <= 'h') || ('A' <= s[0] <= 'H')) && '0' <= s[1] <= '9')
    ensures var r := ParseCoordinate(Text(s));
            r.Ok? && 0 <= r.value.1 <= 7
            ==> s[..2] == SquareName(Coord(r.value.0, r.value.1), 'A' <= s[0] <= 'H')
  {
  }

  /** A parsed pair as a square, when it lies on the board. */
  function OnBoard(p: (int, int)): Option<Coord>
  {
    if 0 <= p.0 <= 7 && 0 <= p.1 <= 7 then Some(Coord(p.0, p.1)) else None
  }

  /** log_move's parse of both ends of a move; a pair off the board is refused here (see
      README). */
  function ParseMove(from: CoordInput, to: CoordInput): Result<Move>
  {
    match (ParseCoordinate(from), ParseCoordinate(to))
    case (Ok(a), Ok(b)) =>
      if OnBoard(a).Some? && OnBoard(b).Some? then Ok(Move(OnBoard(a).value, OnBoard(b).value)) else Err(ValueError)
    case (Err(e), _) => Err(e)
    case (_, Err(e)) => Err(e)
  }

  /** Writing a move's two squares by name, or as pairs, and parsing them back gives that
      move; every refusal is ValueError. */
  lemma ParseMoveRoundTrip(m: Move, upperFrom: bool, upperTo: bool, restFrom: string, restTo: string)
    ensures ParseMove(Text(SquareName(m.from, upperFrom) + restFrom), Text(SquareName(m.to, upperTo) + restTo)) == Ok(m)
    ensures ParseMove(Pair(m.from.file, m.from.rank), Pair(m.to.file, m.to.rank)) == Ok(m)
    ensures forall from: CoordInput, to: CoordInput | ParseMove(from, to).Err? :: ParseMove(from, to).fault == ValueError
  {
  }

  /** Conversely, a move parsed from two strings is the move those strings name in their
      first two characters. */
  lemma ParseMoveNamed(s: string, t: string)
    requires ParseMove(Text(s), Text(t)).Ok?
    ensures var m := ParseMove(Text(s), Text(t)).value;
            s[..2] == SquareName(m.from, 'A' <= s[0] <= 'H') && t[..2] == SquareName(m.to, 'A' <= t[0] <= 'H')
  {
  }

  /** One chess.py game, updated in place. */
  class GameInstance {
    var record: seq<Move>
    var currentBoard: BoardState

    /** GameInstance(record=…, current_board=…). */
    constructor (record: seq<Move>, start: Board)
      ensures this.record == record && currentBoard.Snapshot() == start && fresh(currentBoard)
    {
      this.record := record;
      currentBoard := new BoardState(start.grid, start.lastMove);
    }

    /** log_move: parses both coordinates and appends the move, returning True; the board is
        not touched, and a coordinate that does not parse raises with the record unchanged. */
    method LogMove(from: CoordInput, to: CoordInput) returns (r: Result<bool>)
      modifies this
      ensures currentBoard == old(currentBoard)
      ensures var pm := ParseMove(from, to);
              (pm.Ok? ==> r == Ok(true) && record == old(record) + [pm.value])
              && (pm.Err? ==> r == Err(pm.fault) && record == old(record))
    {
      var pm := ParseMove(from, to);
      if pm.Err? {
        return Err(pm.fault);
      }
      record := record + [pm.value];
      return Ok(true);
    }

    /** commit_moves: replays the uncommitted part of the record, each move checked against the
        whole record first. */
    method CommitMoves() returns (r: Result<bool>)
      modifies currentBoard
      ensures var c := Commit(ChessPy, true, RecursionBudget, old(currentBoard.Snapshot()), record);
              r == c.outcome && currentBoard.Snapshot() == c.board
    {
      r := CommitOn(ChessPy, true, RecursionBudget, currentBoard, record);
    }
  }
}
