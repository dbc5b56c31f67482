# Janggi engine core in Dafny

This project models the rules engine of a two-player Janggi (Korean chess) game:
- a 9 x 10 board of 32 pieces of seven roles;
- Blue moves first;
- each side keeps a roster of its remaining pieces, keyed by labels such as
  "General" or "Chariot1", and an in-check flag;
- the game keeps, for each General, a list of tracked escape squares.

The model has five modules:

- `Board` (board.dfy): squares, sides, roles, pieces and the two palaces. The
  board is a map from occupied squares to pieces; a square that is not a key
  is empty. It also holds the square lookup `search_pos` and the starting
  layout.
- `Movement` (movement.dfy): `valid_move`, one pure function per role. Each
  is computed the way the game computes it: candidate lists for the Horse and
  the Elephant, lists of path squares and of the four marked palace diagonals
  for the Chariot and the Cannon. Each is paired with a lemma that states the
  same rule as plain board geometry.
- `Rosters` (rosters.dfy): a roster is a map from keys to squares. The
  roster object is the class `Player`, with `remove_piece`,
  `update_position`, `restore_removed` and `set_in_check`. The game's two
  roster classes differ only in their starting entries, so one class with a
  `side` field models both.
- `Game` (game.dfy): the controller class `JanggiGame`. Its methods mirror
  `make_move`, `next_move` (the check detector), `checkmate`,
  `track_general`, `clear_board` and `move_board`. `get_general_pos` is the
  function `GeneralPos`, and `is_in_check` is the function `IsInCheck`.
  - The scanning loops of `next_move`, `checkmate` and `make_move` are Dafny
    loops proved against specification functions: `Checks`, `MateFound`,
    `SideReaches`, `Reachable` and `Candidates`.
  - `MakeMove` states the whole resulting state for each way a move can end:
    mate, self-exposure with rollback, or an ordinary move that passes the
    turn.
  - `Valid()` is the invariant every method keeps: every board key is a board
    square; every roster entry sits on a square holding a piece of its side,
    with no two entries on one square; and, conversely, every piece on the
    board has an entry in its owner's roster on its square.
- `Scenarios` (scenarios.dfy): the first four moves of the game's example
  game, and small boards showing the Cannon's screen rules.

A square is `Sq(file, rank)` with file 0..8 for the letters a..i and rank 1..10,
so "e2" is `Sq(4, 2)`.

The model keeps the behaviour of the code where it departs from the rules of
Janggi or from the game's own description:

- A piece captured by a move that is then undone for exposing the mover's
  General is not put back. The restore branch runs only when the vacated
  destination still holds a piece, which it never does. `Rollback` and
  `RollbackDropsCapture` state this.
- `restore_removed` would key the restored piece by the bound method
  `piece.get_role` rather than by a label string. The key `RoleAccessor` models
  that, and it equals no label.
- Passing (start square equal to end square) is decided before the turn
  check and the game-over check. It tests the in-check flag of the owner of
  the piece on the start square, not of the side to move, so either side may
  pass with any piece whose owner is not flagged, even after the game is won.
- The in-check flags are only raised by the check detector: a move that gives
  check raises the opponent's flag, and an opposing piece found by the
  self-exposure scan raises the mover's. They are lowered only by that scan,
  which lowers the mover's flag after an opposing piece reports no check. The
  opponent's flag is never lowered. A move rejected by the move test leaves
  both flags as they were. A move undone for exposure still leaves the
  opponent flagged if it gave check, and leaves the mover flagged.
- In the checkmate search, an allied move defeats mate "when the check has
  gone away". The board is never changed during the search, so once the
  detector has reported a check this branch cannot succeed; only capturing the
  checking piece, or a surviving escape square, refutes mate. `MateAfterCheck`
  proves this.
- A mate returns success, sets the game state and does not pass the turn.
- On a palace diagonal the Cannon jumps an occupied centre whatever piece
  stands there, even another Cannon; along a file or rank the screen may not
  be a Cannon.

## Model

| member | source | states |
|---|---|---|
| Board.AllSquares | JanggiGame.py:262-279 | the game's list of board squares has 90 entries and holds exactly the on-board squares |
| Board.PalaceListIsPalace | JanggiGame.py:19-20 | a square is in a side's palace list exactly when it lies on files d..f and on ranks 1..3 (Red) or 8..10 (Blue) |
| Board.SearchPos | JanggiGame.py:248-254 | the lookup finds a piece exactly when the square is on the board and occupied, and then it is the piece standing there |
| Board.StartPieces | JanggiGame.py:256-293 | the starting layout places pieces on board squares only |
| Board.StartOccupancy | JanggiGame.py:264-273 | the starting layout occupies exactly the back ranks minus their middle, the General squares e2/e9, the Cannon squares and alternate Soldier squares; ranks 1..5 are Red and 6..10 Blue |
| Movement.PalaceStep | JanggiGame.py:522-590 | a General or Guard move ends inside its own palace on a square without an own piece, at most one file and one rank away, and never between two no-diagonal squares; from a palace square it is legal exactly when it follows a palace line |
| Movement.PalaceGeometry | JanggiGame.py:547-554 | inside a palace, the one-step test plus the no-diagonal exclusion admits exactly the orthogonal steps and the diagonal steps to or from the centre |
| Movement.NoDiagonalMembers | JanggiGame.py:524 | within a palace, the no-diagonal list holds exactly the four squares orthogonally next to the centre |
| Movement.HorseMove | JanggiGame.py:592-654 | a Horse move is legal exactly when the target is on the board, holds no own piece, and is one orthogonal step plus one diagonal step away with the orthogonal square empty |
| Movement.HorseTargetsAreLeaps | JanggiGame.py:612-652 | the Horse's candidate list, built leg by leg with a blocked first step dropping its leg, holds exactly the geometric Horse leaps |
| Movement.ElephantMove | JanggiGame.py:656-741 | an Elephant move is legal exactly when the target is on the board, holds no own piece, and is one orthogonal plus two diagonal steps away with both traversed squares empty |
| Movement.ElephantTargetsAreLeaps | JanggiGame.py:675-739 | the Elephant's candidate list holds exactly the geometric Elephant leaps |
| Movement.Path | JanggiGame.py:773-807 | the path list holds exactly the squares strictly between the two squares on their common file or rank, without repeats |
| Movement.OccupiedOn | JanggiGame.py:814-825 | the occupied squares of a path are exactly its squares that hold a piece; the list is empty exactly when the path is clear |
| Movement.SingleOccupied | JanggiGame.py:893-915 | on a path without repeats, the occupied list is the one-element list of s exactly when s is the one occupied square on the path |
| Movement.FirstDiagonal | JanggiGame.py:762-770 | the diagonal found holds both squares; when none is found, no marked diagonal holds both |
| Movement.DiagonalGeometry | JanggiGame.py:762-770 | a diagonal is found exactly when the squares share a marked diagonal; on it, corner-to-corner means two files and two ranks apart, with the centre as midpoint |
| Movement.OffDiagonal | JanggiGame.py:762-770 | a square on no marked diagonal shares none with any square |
| Movement.ChariotMoveSpec | JanggiGame.py:743-826 | a Chariot move is legal exactly when the target is on the board without an own piece and, on a shared palace diagonal, the centre is empty for a corner-to-corner move; otherwise the target is on the same file or rank with every square between empty |
| Movement.ChariotSingleStep | JanggiGame.py:776-797 | a one-square orthogonal step onto a board square without an own piece is always a legal Chariot move |
| Movement.CannonMoveSpec | JanggiGame.py:828-916 | a Cannon move is legal exactly when the target is on the board, holds no own piece and no Cannon, and either it jumps corner to corner over an occupied palace centre of any role, or exactly one non-Cannon piece stands between on the file or rank |
| Movement.CannonScreen | JanggiGame.py:893-915 | one occupied square on the path that is not a Cannon is the same as a unique non-Cannon screen between the squares |
| Movement.CannonNoSingleStep | JanggiGame.py:828-916 | a Cannon never moves to an adjacent square |
| Movement.SoldierMove | JanggiGame.py:918-969 | a Soldier move stays on the board off own pieces, one file sideways or one rank forward, never backward; a diagonal step follows a palace line of the enemy palace; every sideways, forward and listed palace-diagonal step onto a free square is legal |
| Movement.ValidMove | JanggiGame.py:512-969 | no legal move of any role ends off the board or on a piece of the mover's own side (each role's full rule is stated by the rows above) |
| Rosters.RemoveAt | JanggiGame.py:1223-1232 | the roster after a capture keeps exactly the entries not standing on the captured square, with their squares |
| Rosters.MoveEntry | JanggiGame.py:1234-1242 | updating a position keeps every key, moves each entry on the old square to the new one and leaves the others |
| Rosters.MoveEntryRoundTrip | JanggiGame.py:1234-1242 | moving an entry to an unused square and back restores the roster |
| Rosters.MoveEntryInjective | JanggiGame.py:1234-1242 | moving an entry to an unused square keeps entries on distinct squares |
| Rosters.StartRoster | JanggiGame.py:1193-1196 | a starting roster holds the General, on its palace centre |
| Rosters.Player.constructor | JanggiGame.py:1185-1196 | a new roster object is not in check and holds its side's starting entries |
| Rosters.Player.RemovePiece | JanggiGame.py:1223-1232 | the roster loses exactly the entries on the captured square; the flag is unchanged |
| Rosters.Player.UpdatePosition | JanggiGame.py:1234-1242 | the roster's entries on the old square move to the new square; the flag is unchanged |
| Rosters.Player.RestoreRemoved | JanggiGame.py:1244-1250 | the restored entry is keyed by the role accessor, not by a label |
| Rosters.Player.SetInCheck | JanggiGame.py:1210-1215 | the flag takes the given value and the roster is unchanged |
| Game.JanggiGame.IsInCheck | JanggiGame.py:95-109 | a side is reported in check exactly when its roster object's flag is raised |
| Game.GeneralPos | JanggiGame.py:431-445 | a roster's General position exists exactly when the roster holds the General key, and is its square |
| Game.ScanSide | JanggiGame.py:485-491 | the scan answers yes exactly when some piece of the roster may move onto the target |
| Game.Reachable | JanggiGame.py:419-428 | the list holds exactly the listed squares the piece may move to |
| Game.Candidates | JanggiGame.py:309-316 | a candidate escape square is exactly a tracked square that the checking piece cannot reach and the General can enter |
| Game.MateAfterCheck | JanggiGame.py:340-357 | once the detector has reported a check, the verdict is mate exactly when no allied piece can capture the checker and every candidate square is reached by an attacker with the General lifted |
| Game.FilterCandidates | JanggiGame.py:309-316 | the filtered list is the candidate list of the specification |
| Game.NoMoveOffTheList | JanggiGame.py:340-346 | a piece that reaches none of the 90 listed squares has no legal move at all |
| Game.AnySurvivor | JanggiGame.py:321-327 | some candidate survives exactly when some candidate square is reached by no attacking piece |
| Game.AfterCapture | JanggiGame.py:157-166 | recording a capture keeps only entries already present, unchanged, and removes every entry standing on the captured square |
| Game.OutcomeFromAnswers | JanggiGame.py:186-246 | the detector's, the search's and the scan's answers select the same ending as the specification of how a move ends |
| Game.JanggiGame.constructor | JanggiGame.py:12-33 | a new game is unfinished, Blue to play, on the starting layout with the starting rosters and tracked squares, no flag raised, and the invariant holds |
| Game.JanggiGame.ClearBoard | JanggiGame.py:447-456 | the square becomes empty and nothing else changes |
| Game.JanggiGame.MoveBoard | JanggiGame.py:458-467 | the piece is placed on the square when it is on the board, and nothing else changes |
| Game.JanggiGame.TrackGeneral | JanggiGame.py:414-429 | the General's tracked squares become the squares of its palace it may move to, in palace order; the other side's list is unchanged |
| Game.JanggiGame.NextMove | JanggiGame.py:469-510 | the detector reports a check exactly when the piece or some piece of its side may move onto the opposing General, raises the opponent's flag on a check and never lowers it |
| Game.JanggiGame.Probe | JanggiGame.py:341-346 | one square of the allied search refutes mate exactly when the ally may move there while the detector sees no check, or may capture the checker |
| Game.JanggiGame.TryAlly | JanggiGame.py:340-346 | an allied piece refutes mate exactly when it may capture the checker, or has any move while the detector sees no check |
| Game.JanggiGame.AlliesRefute | JanggiGame.py:332-346 | the defending side refutes mate exactly when some non-General piece may capture the checker, or some non-General piece has a move while no check is seen |
| Game.JanggiGame.Checkmate | JanggiGame.py:295-412 | the search answers mate exactly as the checkmate specification does, sets the winner on mate, keeps board, rosters, turn and tracked squares, and only ever raises the defender's flag on a check |
| Game.JanggiGame.TentativeApply | JanggiGame.py:157-183 | applying a legal move empties the start square, puts the piece on the target, moves the mover's roster entry, drops the captured entry, rebuilds a moved General's tracked squares and keeps the invariant |
| Game.JanggiGame.ExposureScan | JanggiGame.py:191-238 | the scan reports exposure exactly when some opposing piece may move onto the mover's General; on no exposure the mover's flag is cleared unless the opponent has no pieces |
| Game.JanggiGame.Rollback | JanggiGame.py:199-211 | undoing moves the piece and its roster entry back and empties the target; the captured piece is not restored |
| Game.JanggiGame.Detect | JanggiGame.py:186-189 | the detector's answer is the check specification, and mate is found exactly on check with the checkmate specification true; the defender is flagged afterwards exactly when it was flagged before or a check was reported, and the mover's flag is untouched |
| Game.JanggiGame.Finish | JanggiGame.py:191-246 | the move is kept exactly when no opposing piece reaches the mover's General; a kept move passes the turn, an exposing one is undone without its capture and leaves the mover flagged |
| Game.JanggiGame.Play | JanggiGame.py:157-246 | a validated move ends as mate, as an undone exposure or as a kept move that passes the turn, by the answers of the detector, the search and the scan; whichever way it ends, the opponent is flagged exactly when it was flagged before or the move gave check |
| Game.JanggiGame.MakeMove | JanggiGame.py:111-246 | a move from an empty square fails and changes nothing; a pass succeeds exactly when the piece's owner is not flagged and changes only the turn; otherwise a move by the side to play that is legal in an unfinished game resolves as the move specification says (board, rosters, state, turn, tracked squares and both flags, a checking move leaving the opponent flagged even when it is undone), and any other move fails and changes nothing |
| Game.RollbackDropsCapture | JanggiGame.py:199-208 | applying a move and undoing it gives the original board without the piece captured on the target |
| Game.ApplyKeepsSquares | JanggiGame.py:157-180 | applying a legal move keeps the board well formed and both rosters on squares of their side without shared squares |
| Game.RollbackKeepsSquares | JanggiGame.py:199-207 | undoing a move keeps the board well formed and both rosters on squares of their side |
| Game.StartIsValid | JanggiGame.py:12-33 | the starting rosters sit on squares of the starting layout holding their side's pieces, without shared squares, and every piece of the layout has an entry of its owner's roster |
| Game.StartRosterCovers | JanggiGame.py:1193-1196 | every piece of a side in the starting layout has an entry of that side's starting roster on its square |
| Game.StartEntry | JanggiGame.py:1193-1196 | each starting square of a side is the square of its label in that side's starting roster |
| Game.ApplyKeepsCover | JanggiGame.py:157-180 | after a legal move is applied, every piece on the board still has an entry of its owner's roster on its square |
| Game.RollbackKeepsCover | JanggiGame.py:199-207 | after a move is undone, every piece on the board still has an entry of its owner's roster on its square |
| Game.StartRosterOnBoard | JanggiGame.py:1193-1196 | every starting roster entry sits on a starting square holding a piece of its side |
| Game.StartRosterInjective | JanggiGame.py:1193-1196 | no two starting roster entries share a square |
| Scenarios.SoldierOpensLegally | JanggiGame.py:1328 | the example game's first move, Soldier c7-c6, is legal |
| Scenarios.HorseRepliesLegally | JanggiGame.py:1329 | the reply Horse c1-d3 is a legal Horse leap |
| Scenarios.ElephantFollowsLegally | JanggiGame.py:1330 | the third move Elephant b10-d7 is a legal Elephant leap |
| Scenarios.CannonJumpsTheHorse | JanggiGame.py:1331 | the fourth move Cannon b3-e3 is legal over the Horse on d3 |
| Scenarios.CannonNeedsAScreen | JanggiGame.py:890-916 | from the start the same Cannon move is illegal for lack of a screen |
| Scenarios.ElephantBlockedByHorse | JanggiGame.py:656-741 | at the start the Red Elephant on b1 cannot reach e3, its first step being blocked |
| Scenarios.CannonReachesOverOneScreen | JanggiGame.py:890-916 | a Cannon captures over exactly one screen on its file |
| Scenarios.TwoScreensBlockTheCannon | JanggiGame.py:890-916 | with two pieces between, the Cannon cannot capture |
| Scenarios.CannonCannotScreenCannon | JanggiGame.py:904-915 | a Cannon cannot serve as a Cannon's screen |

## Left out

- Printing: `print_board`, which needs the terminal colour library, the trace line `make_move` prints, and the example game driver at the end of the file. The driver's first four moves survive as the lemmas of `Scenarios`.
- Square names: the game spells squares as strings such as "e10" and does arithmetic on their characters; the model uses integer files and ranks. Strings that are not squares, which the game treats as off-board names, are the off-board `Square` values.
- Piece objects: the game keeps each piece's square inside the piece object as well as on the board and in the roster; the model keeps the board and the rosters, whose agreement `Valid()` states, and passes the square explicitly. Setting a captured piece's square to None has no counterpart.
- Dictionary order: the game iterates rosters in insertion order; the model picks roster entries in an arbitrary order, and every loop's contract holds whatever the order.
- `is_in_check` with a side that is neither "red" nor "blue" answers False; sides are a datatype here, so that case does not arise.
- Game.JanggiGame.Play: requires only that the target is a board square without an own piece rather than the full move test, since that is all it relies on; `MakeMove` calls it only after the move test has passed.
- Game.JanggiGame.TentativeApply: requires only that the target is a board square without an own piece, as for `Play`.
- Game.JanggiGame.Checkmate: requires the defending roster to hold its General, which the game's caller ensures by calling it only after the detector found a check; without a General the game's own lookups would fail.
- A scenario of check detection on a concrete board (the detector on the example game's checks) is not included; the detector is covered by `NextMove`'s contract against `Checks` for every board.
