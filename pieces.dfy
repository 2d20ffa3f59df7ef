/** Chess pieces as values: ChessPiece in schizochess.py, the "white rook" strings of chess.py. */
module Pieces {
  import opened Wrappers

  datatype Color = White | Black
  datatype Kind = King | Queen | Rook | Bishop | Knight | Pawn
  datatype Piece = Piece(color: Color, kind: Kind)

  function Opponent(c: Color): (o: Color)
    ensures o != c
  {
    if c == White then Black else White
  }

  function ColorName(c: Color): string
  {
    match c
    case White => "white"
    case Black => "black"
  }

  function KindName(k: Kind): string
  {
    match k
    case King => "king"
    case Queen => "queen"
    case Rook => "rook"
    case Bishop => "bishop"
    case Knight => "knight"
    case Pawn => "pawn"
  }

  /** The `full_name` attribute, e.g. "white rook"; it is also the whole piece in chess.py. */
  function FullName(p: Piece): string
  {
    ColorName(p.color) + " " + KindName(p.kind)
  }

  /** Two pieces with the same full name are the same value: the name loses nothing. */
  lemma {:induction false} FullNameInjective(p: Piece, q: Piece)
    requires FullName(p) == FullName(q)
    ensures p == q
  {
    var s, t := FullName(p), FullName(q);
    assert s[0] == t[0];
    assert p.color == q.color;
    assert KindName(p.kind) == s[6..] == t[6..] == KindName(q.kind);
  }

  /** ChessPiece.__eq__: a piece equals another object iff that object is a piece with the
      same full name. Comparing with None (an empty square) is false. */
  function PieceEquals(p: Piece, other: Option<Piece>): (r: bool)
    ensures r <==> other == Some(p)
  {
    if other.Some? && FullName(p) == FullName(other.value) then
      FullNameInjective(p, other.value);
      true
    else
      false
  }

  /** current_turn: white moves when the ply counter is odd (Python's `%` never yields a
      negative remainder for a positive divisor, and Dafny's does not either). */
  function CurrentTurn(moveNumber: int): Color
  {
    if moveNumber % 2 == 1 then White else Black
  }

  /** The side to move alternates with every ply, and white moves first (at ply -1). */
  lemma {:induction false} TurnsAlternate(n: int)
    ensures CurrentTurn(n + 1) == Opponent(CurrentTurn(n))
    ensures CurrentTurn(-1) == White
  {
    assert (n + 1) % 2 == if n % 2 == 1 then 0 else 1;
  }
}
