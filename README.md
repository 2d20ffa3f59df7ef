# Quantum chess: the legality engine and the game layers

This project models the core of a Python quantum-chess program. Two files are covered:

- `schizochess.py`. A `QuantumChessGame` is a list of "universes". Each is a `GameInstance`:
  a record of moves and the `BoardState` they have been played onto. A move is made in every
  universe that allows it. A "superposition" forks every universe over every destination of
  one square. Universes that end on the same board are then culled.
- `chess.py`. An older single-game version: pieces are strings such as `"white rook"`, and
  coordinates may be written as text such as `"f5"`.

Both files carry their own copy of one chess-legality engine. It is made of
`is_legal_chess_move` and `is_in_check`, which call each other.

The model is spread over these modules:

- `Wrappers`: `Option`, and `Result` with a `Fault` for every Python exception the core can
  raise.
- `Pieces`: colours, kinds, pieces, piece equality by full name, and whose turn it is.
- `Boards`: the 8×8 grid, indexed `[file][rank]` as in the source, Python's negative indexing,
  and the `BoardState` class with its in-place `set_square` and `increment_last_move`.
- `Legality`: one engine, parameterised by `Variant` (`SchizochessPy` or `ChessPy`), that
  follows the source branch by branch. The two copies differ in three places:
  - schizochess.py honours `allow_moves_in_place`;
  - schizochess.py reads `.full_name` of squares that may be empty, where chess.py compares
    strings;
  - schizochess.py builds the castling rook's square by adding two integers (a TypeError),
    where chess.py builds `"h1"`-style names.
- `MovementFacts`, `KingFacts`, `CheckFacts`: what the engine accepts, stated
  declaratively and proved:
  - the early rejections;
  - pawn, rook, knight, bishop, queen and king shapes, and paths that must be empty;
  - castling conditions;
  - the king-safety test after a move;
  - what `is_in_check` means;
  - that results do not depend on the recursion budget.
- `Replay`: `commit_moves` as a function on values (`ReplayFrom`, `Commit`) and as the loop
  that updates a `BoardState` in place (`CommitOn`), proved equal.
- `Schizochess`, `ChessGame`: the two `GameInstance` classes, `move`, and the coordinate
  parsers (`parse_algebraic_coordinate`, `parse_coordinate`).
- `Multiverse`: `QuantumChessGame` with `move`, `superposition` and `cull_duplicate_states`.
  Each loop is proved against a function on the list of universes, and the cull against an
  independent "first of each board" definition.

Exceptions are `Err(fault)` values. The two engine functions can re-enter each other
without end. Every engine function therefore takes `fuel`, the number of nested calls still
allowed. Both `is_in_check` and the castle's test of the king's step onto the passed square
use it up. Running out is `Err(RecursionLimit)`, which stands for
Python's `RecursionError`. The game layers use `RecursionBudget` (500 levels, that is
Python's default limit of 1000 frames at two frames per level).

Properties of the source as written that the model makes precise:

- Horizontal rook and queen moves. The step sign comes from the ranks, so a move along a
  rank always scans toward file a, wrapping through negative indices. A move toward file a
  is therefore judged correctly, while a move toward file h probes the wrong squares
  (`RankScanTowardFileA`, `RankScanTowardFileH`).
- Castling in schizochess.py can never pass the king-safety test. Moving the rook raises
  TypeError (`SchizochessCastleNeverLegal`), so `GameInstance.move` never castles. In
  chess.py a legal castle puts a new rook on the d or f file whatever stood in the corner
  (`LegalLeavesKingSafe`, `ApplyCastle`).
- Any king move along its rank onto file c or g is treated as a castle attempt, and a castle
  attempt first asks `is_in_check`. With a white king on c1 and a black king on g1, alone on
  the board, each king's probe of the other is such an attempt, so `is_in_check` recurses
  forever (`FacingKingsNeverReturn`).
- `GameInstance.move` never passes `record=`. The en passant and castling record checks
  therefore run only in `commit_moves`.
- A move from an empty square raises AttributeError in schizochess.py's unchecked replay
  (`commit_moves(check_for_legality=False)`). Checked replay, the only kind chess.py has,
  answers False first (`EmptyOriginReplay`).
- schizochess.py's unchecked replay accepts any two-file king move. Onto a file other than c
  or g it raises KeyError (`ApplyCastle`).
- chess.py's `parse_coordinate` does not range-check the digit. "a0" gives rank −1 and "a9"
  gives rank 8 (`ParseCoordinate`).

## Model

| member | source | states |
|---|---|---|
| Pieces.Opponent | schizochess.py:239 | the opponent's colour is never the mover's own |
| Pieces.PieceEquals | schizochess.py:31-39 | two pieces are equal exactly when the other is a piece with the same colour and kind; anything that is not a piece is unequal |
| Pieces.FullNameInjective | schizochess.py:25 | different pieces have different full names, so comparing full names is comparing colour and kind |
| Pieces.TurnsAlternate | schizochess.py:441-445 | the colour to move alternates with each ply, and White moves first (last_move −1) |
| Pieces.CurrentTurn | schizochess.py:441-445 | whose turn a `last_move` value gives: White after an odd value, Black after an even one; its meaning is proved by Pieces.TurnsAlternate |
| Boards.Wrap | schizochess.py:67 | a Python index from −8 to 7 lands on the square congruent to it modulo 8 |
| Boards.Set | schizochess.py:81-88 | setting a square gives it the new occupant and leaves all 63 others unchanged |
| Boards.GridsEqualPointwise | schizochess.py:60-61 | two boards are equal exactly when every square holds the same occupant |
| Boards.BoardEquals | schizochess.py:60-61 | `BoardState.__eq__`: two board states are equal when their grids are, whatever their move counters; the cull's comparison of universes; Boards.GridsEqualPointwise states this square by square |
| Boards.BoardState.Square | schizochess.py:63-67 | `square`: the occupant of one square of the board state |
| Boards.BoardState.constructor | schizochess.py:42-55 | a board state holds the given grid and last-move counter |
| Boards.BoardState.SetSquare | schizochess.py:81-88 | set_square changes one square in place; every other square and the move counter are unchanged |
| Boards.BoardState.IncrementLastMove | schizochess.py:75-79 | increment_last_move advances the counter by one and leaves the grid alone |
| Legality.PySliceTo | schizochess.py:347 | `record[:n]` is a prefix of the record, of length n when 0 ≤ n ≤ length |
| Legality.PySliceFrom | schizochess.py:113 | `record[n:]` is a suffix of the record, of length length−n when 0 ≤ n ≤ length |
| Legality.IsLegal | schizochess.py:210-384 | is_legal_chess_move, branch by branch, both copies (chess.py:135-308): a legal move has an occupied origin, and the only exceptions are RecursionError, AttributeError, TypeError and IndexError |
| Legality.Movement | schizochess.py:256-361 | the chain of piece-type branches: only a king's move can be a castle, and the same four exceptions |
| Legality.PawnMovement | schizochess.py:256-285 | the pawn branch: never a castle; raises only IndexError, or AttributeError in schizochess.py; MovementFacts.PawnRules states its meaning |
| Legality.RangedMovement | schizochess.py:287-324 | the rook, knight, bishop and queen branches, which never raise or recurse; MovementFacts.RangedShapes states its meaning |
| Legality.KingMovement | schizochess.py:326-357 | the king branch: never en passant; a castle only along the rank onto file c or g; the same four exceptions |
| Legality.Scratch | schizochess.py:363-377 | the trial board of the check test: it raises exactly for a castle in schizochess.py, with TypeError, and otherwise advances the ply; KingFacts.LegalLeavesKingSafe states the rest |
| Legality.KingSafety | schizochess.py:363-381 | the check test after the move raises only the four engine exceptions |
| Legality.InCheck | schizochess.py:197-208 | is_in_check raises only the four engine exceptions; CheckFacts.InCheckMeaning states its meaning |
| Legality.KingScan | schizochess.py:198-201 | the outer loops of is_in_check raise only the four engine exceptions |
| Legality.AttackScan | schizochess.py:202-206 | the inner loops of is_in_check raise only the four engine exceptions |
| MovementFacts.EarlyRejections | schizochess.py:233-254 | an empty origin, a move out of turn, a move in place or a capture of one's own colour is illegal; every legal move passes these tests |
| MovementFacts.ScanClearAll | schizochess.py:289-292 | the path loop accepts exactly when every probed square is empty |
| MovementFacts.FileScan | schizochess.py:287-292 | along a file, the path test holds exactly when every square strictly between origin and target is empty |
| MovementFacts.RankScan | schizochess.py:287-292 | along a rank, the path test holds exactly when the squares it probes, stepping toward file a and wrapping, are empty |
| MovementFacts.RankScanTowardFileA | schizochess.py:290 | toward file a the probed squares are exactly those between origin and target |
| MovementFacts.RankScanTowardFileH | schizochess.py:290 | toward file h the wrong squares are probed: a rook jumps a blocker on b1 but is stopped by a piece on h1 |
| MovementFacts.DiagonalScan | schizochess.py:302-309 | the diagonal path test holds exactly when every square strictly between origin and target on the diagonal is empty |
| MovementFacts.RangedShapes | schizochess.py:287-324 | a rook, knight, bishop or queen move has a legal shape exactly when it follows that piece's rule with a clear path |
| MovementFacts.RangedLegality | schizochess.py:287-324 | a legal rook, knight, bishop or queen move passes the early tests and its piece's rule; without the check test, legality is exactly that |
| MovementFacts.PawnRules | schizochess.py:256-285 | pawn pushes of one or two squares onto empty squares, diagonal captures, en passant next to an enemy pawn on the fifth rank, with the AttributeError and IndexError cases exactly characterised |
| CheckFacts.AttackScanSteps | schizochess.py:202-206 | the attacker loop answers no exactly when no square attacks the king; yes or an exception only from some square that does or raises |
| CheckFacts.AttackScanMeaning | schizochess.py:202-206 | the same over all 64 squares |
| CheckFacts.KingScanSteps | schizochess.py:198-201 | the king loop answers no exactly when no king of the colour is attacked |
| CheckFacts.InCheckMeaning | schizochess.py:197-208 | is_in_check is false exactly when no square attacks any king of the colour, and true only when some square does |
| CheckFacts.NoKingNoCheck | schizochess.py:197-208 | a colour with no king on the board is never in check |
| CheckFacts.KingScanSkip | schizochess.py:198-201 | squares without a king of the colour do not affect the king loop |
| CheckFacts.AttackScanSkip | schizochess.py:202-206 | squares that do not attack do not affect the attacker loop |
| CheckFacts.IsLegalFuel | schizochess.py:210-384 | a legality answer reached within some recursion budget is the same under any larger budget |
| CheckFacts.MovementFuel | schizochess.py:256-361 | the same for the movement rules |
| CheckFacts.KingMovementFuel | schizochess.py:326-357 | the same for the king's rules, castling included |
| CheckFacts.KingSafetyFuel | schizochess.py:363-381 | the same for the test after the move |
| CheckFacts.InCheckFuel | schizochess.py:197-208 | the same for is_in_check |
| CheckFacts.KingScanFuel | schizochess.py:198-206 | the same for the king loop |
| CheckFacts.AttackScanFuel | schizochess.py:202-206 | the same for the attacker loop |
| CheckFacts.FacingKingsNeverReturn | schizochess.py:326-332 | with a white king on c1 and a black king on g1 alone on the board, each king's probe of the other is a castle attempt that asks is_in_check again: the answer is RecursionError under every budget |
| KingFacts.KingSteps | schizochess.py:355-357 | a king move that is not a castle attempt is legal only as a one-square step; without the check test, legality is exactly that |
| KingFacts.CastleRules | schizochess.py:326-354 | a castle attempt is legal exactly when the early tests and the castling conditions hold (not in check, passed square empty and safe, rook in the corner, neither moved in the record), and only from file e |
| KingFacts.SchizochessCastleNeverLegal | schizochess.py:369-374 | in schizochess.py a castle checked for safety is never legal |
| KingFacts.NoEnemyNoCheck | schizochess.py:197-208 | with no enemy piece on the board a colour is never in check |
| KingFacts.LoneCastleStep | schizochess.py:338 | the king's step onto the passed square is legal on a board with king and rook alone |
| KingFacts.LoneCastleOutcomes | chess.py:296-298 | the same castle is legal in chess.py and raises TypeError in schizochess.py |
| KingFacts.LegalSteps | schizochess.py:363-384 | a legal move has a non-rejected shape, castles only as a king, takes en passant only as a pawn, and with the check test leaves its own king out of check |
| KingFacts.LegalLeavesKingSafe | schizochess.py:363-381 | the trial board moves the piece, advances the ply, removes an en passant victim or relocates the rook and changes nothing else, and the mover is not in check on it |
| Replay.EmptyOriginReplay | schizochess.py:113-119 | a first uncommitted move from an empty square makes unchecked replay in schizochess.py raise AttributeError with the board untouched; checked replay, in either file, answers False with the board untouched |
| Replay.ApplyMovesPiece | schizochess.py:116-131 | replaying a non-castle move puts the piece on the target, empties the origin, removes an en passant victim, advances the ply and changes nothing else |
| Replay.ApplyCastle | schizochess.py:122-127 | replaying any two-file king move raises KeyError off files c and g with the board untouched; onto c or g, schizochess.py clears the corner and raises TypeError, and chess.py, for a king not on the corner, moves king and rook and changes nothing else |
| Replay.ReplayConcat | schizochess.py:113-133 | replaying two lists of moves is replaying the first, then the second from where it stopped, unless the first stopped early |
| Replay.ReplayAdvances | schizochess.py:111-135 | replay advances the ply once per move played, and by the whole list when it returns True |
| Replay.ReplayStopsAtFirstIllegal | schizochess.py:132-133 | checked replay stops at the first illegal move and returns False with the board as it was before it |
| Replay.LegalMoveApplies | schizochess.py:115-131 | a legal move replays without error in chess.py, and in schizochess.py unless it is a two-file king move |
| Replay.Apply | schizochess.py:116-131 | the loop body for an accepted move never answers False, and advances the ply exactly when it succeeds |
| Replay.Step | schizochess.py:115-133 | one turn of the loop answers False only when checking, with the board untouched, and advances the ply exactly when it succeeds |
| Replay.ReplayFrom | schizochess.py:113-135 | the loop over the moves to replay; Replay.ReplayConcat, Replay.ReplayAdvances and Replay.CheckedReplayErrors state its meaning |
| Replay.Commit | schizochess.py:104-135 | commit_moves: the loop from `record[last_move + 1:]`; Replay.CommitOn is proved equal to it |
| Replay.CheckedReplayErrors | schizochess.py:113-115 | an exception from checked replay is the legality test's exception on the move at which the board stopped |
| Replay.ApplyOn | schizochess.py:116-131 | the in-place loop body leaves the board state and result that the value model gives |
| Replay.StepOn | schizochess.py:115-133 | one in-place turn of the loop agrees with the value replay of the remaining moves |
| Replay.CommitOn | schizochess.py:104-135 | the in-place commit leaves the board and result of replaying the record from the ply after last_move |
| Schizochess.InstanceMoveOutcomes | schizochess.py:137-151 | move raises on uncommitted moves; otherwise it answers as the legality test did, leaves the game alone unless legal, and for a legal move appends it, plays it (never a castle), and leaves all moves committed |
| Schizochess.MoveKeepsCommitted | schizochess.py:143-149 | a committed game stays committed after any move |
| Schizochess.InstanceMove | schizochess.py:137-151 | GameInstance.move on a value; Schizochess.InstanceMoveOutcomes states its meaning |
| Schizochess.GameInstance.constructor | schizochess.py:91-94 | a new game holds the given record and a board state with the given grid and counter |
| Schizochess.GameInstance.LogMove | schizochess.py:96-102 | log_move appends the move and touches nothing else |
| Schizochess.GameInstance.CommitMoves | schizochess.py:104-135 | commit_moves leaves the board and result of replaying the uncommitted moves, with or without the legality test, as asked |
| Schizochess.GameInstance.Move | schizochess.py:137-151 | move changes the game and answers as InstanceMove describes |
| Schizochess.LastKeyMeaning | schizochess.py:453-457 | the parser's value for an axis comes from a recognised character with none after it, and is None exactly when there is none |
| Schizochess.LastKeyAppend | schizochess.py:453-457 | text appended later overrides what came before, unless it holds no recognised character |
| Schizochess.LastKey | schizochess.py:453-457 | the value the last recognised character gives; Schizochess.LastKeyMeaning states its meaning |
| Schizochess.ParseAlgebraic | schizochess.py:447-459 | the character loop returns the last file letter and the last rank digit |
| Schizochess.AlgebraicRoundTrip | schizochess.py:447-459 | parsing a square's algebraic name gives the square back |
| ChessGame.ParseCoordinate | chess.py:26-38 | pairs pass through unchanged; parsed text gives file 0–7 and rank −1–8; any failure is ValueError |
| ChessGame.ParseSquareName | chess.py:31-34 | parsing a square's name in either case, with anything after it, gives the square back |
| ChessGame.ParseTextCases | chess.py:32-38 | text parses exactly when it starts with a letter a–h in either case and a digit, and an on-board result is the square those characters name |
| ChessGame.ParseMoveRoundTrip | chess.py:91 | log_move's parse of two square names (either case, anything after them ignored), or of two on-board pairs, gives back the move they name; every refusal is ValueError |
| ChessGame.ParseMoveNamed | chess.py:91 | conversely, a move parsed from two strings is the one their first two characters name |
| ChessGame.GameInstance.constructor | chess.py:67-83 | a new game holds the given record and a board state with the given grid and counter |
| ChessGame.GameInstance.LogMove | chess.py:85-93 | log_move appends the parsed move and returns True, or raises ValueError with the record unchanged |
| ChessGame.GameInstance.CommitMoves | chess.py:95-121 | commit_moves leaves the board and result of checked replay of the uncommitted moves |
| Multiverse.ForkCalls | schizochess.py:178-183 | superposition makes 64 calls per universe, universe by universe |
| Multiverse.Survivors | schizochess.py:158-168 | the copies a loop keeps are never more than the calls made; Multiverse.SurvivorsMeaning states exactly which |
| Multiverse.Settle | schizochess.py:165-170 | a successful move or superposition leaves at least one universe, and no more than the survivors; otherwise the exception raised, or the "no universe" exception when none survived |
| Multiverse.ForkCallsFrom | schizochess.py:178-183 | every call of superposition is a move from the chosen square in one of the universes |
| Multiverse.SurvivorsConcat | schizochess.py:178-183 | the survivors of consecutive calls are the survivors of each, joined, and an exception in either ends the loop |
| Multiverse.SurvivorsErrorSticks | schizochess.py:160-163 | once a call raises, later calls change nothing |
| Multiverse.SurvivorsErrorSticksCalls | schizochess.py:178-183 | once a universe's fork raises, later universes change nothing |
| Multiverse.SurvivorsMeaning | schizochess.py:158-168 | the loop raises exactly when some call raises, with the first such exception; otherwise it keeps exactly the copies whose move succeeded |
| Multiverse.MoveSurvivorsCommitted | schizochess.py:157-168 | move tries the move once on a copy of each universe (Multiverse.MoveCalls); every surviving universe is committed and extends some old universe's record by the move |
| Multiverse.ForkSurvivors | schizochess.py:172-188 | every forked universe is committed, its last move leaves the chosen square, and that square is now empty |
| Multiverse.ForkUniverse | schizochess.py:179-183 | the two nested destination loops try all 64 destinations on copies of one universe (Multiverse.UniverseCalls) and keep exactly the survivors of the 64 calls |
| Multiverse.DedupBoards | schizochess.py:192-193 | the cull keeps only universes it was given, and keeps every board that occurs |
| Multiverse.Dedup | schizochess.py:192-193 | the cull never adds universes and leaves at least one when given any |
| Multiverse.Firsts | schizochess.py:192-193 | the reference for the cull, the universes that are the first with their board, no more than those looked at |
| Multiverse.DedupIsFirsts | schizochess.py:192-193 | the cull keeps exactly the universes that are the first with their board, in order |
| Multiverse.DedupDistinct | schizochess.py:192-193 | after the cull no two universes share a board |
| Multiverse.DedupOfDistinct | schizochess.py:192-193 | universes with distinct boards are left as they are |
| Multiverse.DedupIdempotent | schizochess.py:192-193 | culling twice is culling once |
| Multiverse.QuantumChessGame.constructor | schizochess.py:154-155 | a new quantum game is one universe holding a new game |
| Multiverse.QuantumChessGame.Move | schizochess.py:157-170 | the culled survivors replace the universes; an exception or no survivor raises and leaves them as they were |
| Multiverse.QuantumChessGame.Superposition | schizochess.py:172-190 | the culled survivors of every destination in every universe replace the universes; an exception or no survivor raises and leaves them as they were |
| Multiverse.QuantumChessGame.CullDuplicateStates | schizochess.py:192-193 | the universes become the first of each board, in order |

## Left out

- Printing: `say`, the `verbose` level and `visualize_superposition` write to the console and
  change nothing, so they are not modelled.
- Pieces' `uuid` identities and hashing are not modelled. `toolz.unique` looks boards up by
  hash, and `BoardState.__hash__` hashes each piece by its uuid, which `deepcopy` preserves.
  Two boards that are equal piece for piece but carry different pieces on some square (say the
  two white knights exchanged) therefore hash differently, and both survive the cull. The model
  culls by the board equality that `__eq__` defines.
- Multiverse.QuantumChessGame.CullDuplicateStates: boards equal by colour and kind are always
  culled as duplicates. Python keeps both when their pieces' uuids differ (see the previous
  line).
- Object sharing: `GameInstance()` in schizochess.py shares one `BoardState()` default object
  between its starting and current board. The model gives each game its own board and does
  not model `starting_board`, which the core never reads after construction.
- ChessGame.GameInstance.constructor: chess.py's default `starting_board=BoardState()` is
  evaluated once, when the function is defined. Every game built without a `current_board`
  therefore shares that one board object, and committing moves in one game moves the pieces
  of all the others. The model instead gives each game a fresh board (`fresh(currentBoard)`),
  so it does not capture this sharing.
- Schizochess.GameInstance.constructor, ChessGame.GameInstance.constructor: a `record` or
  `current_board` passed in is stored, not copied, so the caller's list and board stay aliased
  with the game's. The model copies the given grid and record as values, so it does not
  capture this aliasing.
- `set_last_move`, pawn promotion (which the source does not implement) and
  `test_coordinate_validity` are not modelled. They are not part of the move and commit paths.
- Coordinates off the 8×8 board are not modelled: a square is a pair of numbers 0–7. Python's
  behaviour on other indices (IndexError, or wrapping for −8…−1) is modelled only where the
  engine produces such an index itself, in the rank scan.
- ChessGame.ParseMove: a pair or a text such as "a9" that parses to a square off the board is
  refused with ValueError. chess.py appends it to the record unchecked.
- ChessGame.GameInstance.LogMove: off-board coordinates raise ValueError instead of being
  logged, as for ParseMove.
- String coordinates given to chess.py's `square` and `set_square` outside `log_move` are not
  modelled. The engine is given squares directly, and the rook squares written as `"h1"` are
  modelled as the squares they name.
- The TypeError branch of schizochess.py's `set_square`, for a value that is neither a piece
  nor None, is not modelled. The core only ever stores pieces or None, apart from the castling
  call that fails earlier on its integer coordinate.
- The `piece_ID` and `cull_duplicates` keyword arguments of `superposition` are read but never
  used by the source, so they are not modelled.
- Recursion depth is a budget of nested `is_in_check` and castle-transit calls
  (`RecursionBudget`), not Python's
  frame count. The point at which RecursionError is raised is approximate.
- `int()` on non-ASCII digits, and `tuple()` applied to iterables other than pairs, are not
  modelled in `parse_coordinate`.
- `is_legal_chess_move` given text moves in chess.py is not modelled. The game layer parses
  every move before the engine sees it.
- `quantum_chess.py`, `many_worlds_solitaire.py`, `Qchess.py` and `chess_debug.py` are not part
  of this model.
