/**
 * The game controller: the board, both rosters, whose turn it is, the game
 * state and each General's tracked escape squares, with the move procedure
 * (validate, apply tentatively, scan for self-check, commit or roll back,
 * pass the turn), the check detector and the checkmate search.
 */
module Game {
  import opened Board
  import opened Movement
  import opened Rosters

  /** Where a roster's General stands, if it still has one. */
  function GeneralPos(r: Roster): (pos: Option<Square>)
    ensures pos.Some? <==> GeneralKey in r
    ensures pos.Some? ==> pos.value == r[GeneralKey]
  {
    if GeneralKey in r then Some(r[GeneralKey]) else None
  }

  /** Piece `p` on `at` may move onto `target`; never when there is no target. */
  predicate Reaches(g: Grid, p: Piece, at: Square, target: Option<Square>) {
    target.Some? && ValidMove(g, p, at, target.value)
  }

  /** The piece of roster entry `k` may move onto `target`. */
  predicate EntryReaches(g: Grid, r: Roster, k: Key, target: Option<Square>) {
    k in r && r[k] in g && Reaches(g, g[r[k]], r[k], target)
  }

  /** Some piece of the roster may move onto `target`. */
  ghost predicate SideReaches(g: Grid, r: Roster, target: Option<Square>) {
    exists k :: EntryReaches(g, r, k, target)
  }

  /** Scans a roster for a piece that may move onto `target`. */
  method ScanSide(g: Grid, r: Roster, target: Option<Square>) returns (hit: bool)
    ensures hit <==> SideReaches(g, r, target)
  {
    var todo := r.Keys;
    while todo != {}
      invariant todo <= r.Keys
      invariant forall k :: k in r && k !in todo ==> !EntryReaches(g, r, k, target)
    {
      var k :| k in todo;
      if EntryReaches(g, r, k, target) {
        return true;
      }
      todo := todo - {k};
    }
    return false;
  }

  /** The check the move detector computes for piece `p` on `at`: it, or any
   *  piece of its own roster `own`, may move onto the opposing General. */
  ghost predicate Checks(g: Grid, p: Piece, at: Square, own: Roster, opposing: Roster) {
    Reaches(g, p, at, GeneralPos(opposing)) || SideReaches(g, own, GeneralPos(opposing))
  }

  /** Every roster entry sits on a board square holding a piece of the roster's
   *  side, and no two entries share a square. */
  ghost predicate OnItsSquares(g: Grid, r: Roster, side: Side) {
    (forall k :: k in r ==> r[k] in g && g[r[k]].owner == side) && Injective(r)
  }

  /** Every piece of `side` on the board has an entry of roster `r` on its square. */
  ghost predicate Covers(g: Grid, r: Roster, side: Side) {
    forall s :: Recorded(g, r, side, s)
  }

  /** A piece of `side` on square `s`, if any, has an entry of roster `r` there. */
  ghost predicate Recorded(g: Grid, r: Roster, side: Side, s: Square) {
    s in g && g[s].owner == side ==> s in r.Values
  }

  /** The squares of `s` that piece `p` on `at` may move to, in order. */
  function Reachable(g: Grid, p: Piece, at: Square, s: seq<Square>): (q: seq<Square>)
    ensures forall m :: m in q <==> m in s && ValidMove(g, p, at, m)
  {
    if s == [] then []
    else Reachable(g, p, at, s[..|s| - 1]) + (if ValidMove(g, p, at, s[|s| - 1]) then [s[|s| - 1]] else [])
  }

  /** The General's candidate escape squares: tracked squares that the checking
   *  piece `p` on `at` does not reach and the General `gen` on `gpos` may enter. */
  function Candidates(g: Grid, p: Piece, at: Square, gen: Piece, gpos: Square, track: seq<Square>): (q: seq<Square>)
    ensures forall m :: m in q <==> m in track && !ValidMove(g, p, at, m) && ValidMove(g, gen, gpos, m)
  {
    if track == [] then []
    else
      var m := track[|track| - 1];
      Candidates(g, p, at, gen, gpos, track[..|track| - 1]) +
      (if !ValidMove(g, p, at, m) && ValidMove(g, gen, gpos, m) then [m] else [])
  }

  /** A non-General piece of roster `r` may move onto `target`. */
  ghost predicate AllyReaches(g: Grid, r: Roster, target: Square) {
    exists k :: k in r && r[k] in g && g[r[k]].role != General && ValidMove(g, g[r[k]], r[k], target)
  }

  /** A non-General piece of roster `r` has some legal move. */
  ghost predicate AllyMoves(g: Grid, r: Roster) {
    exists k, s :: k in r && r[k] in g && g[r[k]].role != General && ValidMove(g, g[r[k]], r[k], s)
  }

  /** Some candidate escape square is not reached by any attacking piece once
   *  the General has left the board. */
  ghost predicate EscapeSurvives(g: Grid, attackers: Roster, gpos: Square, candidates: seq<Square>) {
    exists m :: m in candidates && !SideReaches(g - {gpos}, attackers, Some(m))
  }

  /** The checkmate verdict for piece `p` on `at` (of roster `own`) against the
   *  General of roster `opposing`, whose tracked squares are `track`. */
  ghost predicate MateFound(g: Grid, p: Piece, at: Square, own: Roster, opposing: Roster, track: seq<Square>)
    requires GeneralKey in opposing && opposing[GeneralKey] in g
  {
    var gpos := opposing[GeneralKey];
    !AllyReaches(g, opposing, at) &&
    !(AllyMoves(g, opposing) && !Checks(g, p, at, own, opposing)) &&
    !EscapeSurvives(g, own, gpos, Candidates(g, p, at, g[gpos], gpos, track))
  }

  /** Once the checking move does check, an allied move can refute mate only
   *  by capturing the checking piece: the test for a move that ends the check
   *  never succeeds, because the detector runs on the unchanged board. */
  lemma MateAfterCheck(g: Grid, p: Piece, at: Square, own: Roster, opposing: Roster, track: seq<Square>)
    requires GeneralKey in opposing && opposing[GeneralKey] in g
    requires Checks(g, p, at, own, opposing)
    ensures MateFound(g, p, at, own, opposing, track) <==>
              !AllyReaches(g, opposing, at) &&
              forall m :: m in Candidates(g, p, at, g[opposing[GeneralKey]], opposing[GeneralKey], track) ==>
                            SideReaches(g - {opposing[GeneralKey]}, own, Some(m))
  {
  }

  function WinFor(side: Side): (s: GameState)
    ensures s != Unfinished
  {
    if side == Red then RedWon else BlueWon
  }

  /** The board once `p` has left `from` for `to`, capturing whatever stood there. */
  function Applied(g: Grid, p: Piece, from: Square, to: Square): Grid {
    (g - {from})[to := p]
  }

  /** The candidate escape squares, computed square by square. */
  method FilterCandidates(g: Grid, p: Piece, at: Square, gen: Piece, gpos: Square, track: seq<Square>)
    returns (candidates: seq<Square>)
    ensures candidates == Candidates(g, p, at, gen, gpos, track)
  {
    candidates := [];
    var i := 0;
    while i < |track|
      invariant 0 <= i <= |track|
      invariant candidates == Candidates(g, p, at, gen, gpos, track[..i])
    {
      assert track[..i + 1][..i] == track[..i];
      if !ValidMove(g, p, at, track[i]) && ValidMove(g, gen, gpos, track[i]) {
        candidates := candidates + [track[i]];
      }
      i := i + 1;
    }
    assert track[..|track|] == track;
  }

  /** A piece with no move onto any of the 90 listed squares has no move at all. */
  lemma NoMoveOffTheList(g: Grid, c: Piece, cpos: Square)
    requires Reachable(g, c, cpos, AllSquares()) == []
    ensures forall s :: !ValidMove(g, c, cpos, s)
  {
    forall s ensures !ValidMove(g, c, cpos, s) {
      assert OnBoard(s) ==> s in AllSquares();
    }
  }

  /** Whether some candidate square is reached by no piece of `attackers`. */
  method AnySurvivor(g: Grid, attackers: Roster, candidates: seq<Square>) returns (survivor: bool)
    ensures survivor <==> exists m :: m in candidates && !SideReaches(g, attackers, Some(m))
  {
    survivor := false;
    var j := 0;
    while j < |candidates|
      invariant 0 <= j <= |candidates|
      invariant survivor <==> exists m :: m in candidates[..j] && !SideReaches(g, attackers, Some(m))
    {
      var covered := ScanSide(g, attackers, Some(candidates[j]));
      assert candidates[..j + 1] == candidates[..j] + [candidates[j]];
      if !covered {
        survivor := true;
      }
      j := j + 1;
    }
    assert candidates[..|candidates|] == candidates;
  }

  /** The opposing roster once a capture on `to` has been recorded: the entry
   *  standing there is deleted when the board held a piece on `to`. */
  function AfterCapture(r: Roster, g: Grid, to: Square): (r': Roster)
    ensures forall k :: k in r' ==> k in r && r'[k] == r[k]
    ensures Occupied(g, to) ==> forall k :: k in r' ==> r'[k] != to
    ensures forall k :: k in r && r[k] != to ==> k in r'
  {
    if Occupied(g, to) then RemoveAt(r, to) else r
  }

  /** How a legal move that has been applied ends. */
  datatype Outcome = Mate | Exposed | Committed

  /** The ending of a move of `p` onto `to` that left board `g` and rosters
   *  `mover` and `opposing`, the opposing General having tracked squares
   *  `track`: mate when the move checks and the checkmate search finds mate;
   *  otherwise rolled back when some opposing piece may move onto the mover's
   *  General; otherwise kept. */
  ghost function MoveOutcome(g: Grid, p: Piece, to: Square, mover: Roster, opposing: Roster,
                             track: seq<Square>): Outcome
  {
    if Checks(g, p, to, mover, opposing) && GeneralKey in opposing && opposing[GeneralKey] in g &&
       MateFound(g, p, to, mover, opposing, track)
    then Mate
    else if SideReaches(g, opposing, GeneralPos(mover)) then Exposed
    else Committed
  }

  /** The ending the move procedure picks from its three answers. */
  function Answered(check: bool, mate: bool, exposed: bool): Outcome {
    if check && mate then Mate else if exposed then Exposed else Committed
  }

  /** The answers of the detector, the checkmate search and the self-check
   *  scan determine the ending MoveOutcome describes. */
  lemma OutcomeFromAnswers(g: Grid, p: Piece, to: Square, mover: Roster, opposing: Roster, track: seq<Square>,
                           check: bool, mate: bool, exposed: bool)
    requires check == Checks(g, p, to, mover, opposing)
    requires check ==> GeneralKey in opposing && opposing[GeneralKey] in g &&
                       mate == MateFound(g, p, to, mover, opposing, track)
    requires exposed == SideReaches(g, opposing, GeneralPos(mover))
    ensures MoveOutcome(g, p, to, mover, opposing, track) == Answered(check, mate, exposed)
  {
  }

  class JanggiGame {
    var board: Grid
    var state: GameState
    var turn: Side
    var trackRed: seq<Square>
    var trackBlue: seq<Square>
    const red: Player
    const blue: Player

    ghost predicate Valid()
      reads this, red, blue
    {
      red != blue && red.side == Red && blue.side == Blue &&
      WellFormed(board) &&
      OnItsSquares(board, red.remain, Red) && OnItsSquares(board, blue.remain, Blue) &&
      Covers(board, red.remain, Red) && Covers(board, blue.remain, Blue)
    }

    function PlayerOf(side: Side): Player {
      if side == Red then red else blue
    }

    function TrackOf(side: Side): seq<Square>
      reads this
    {
      if side == Red then trackRed else trackBlue
    }

    /** Whether `side` is in check, as its roster object's flag records it. */
    function IsInCheck(side: Side): (r: bool)
      reads this, red, blue
      ensures r == PlayerOf(side).inCheck
    {
      PlayerOf(side).inCheck
    }

    constructor ()
      ensures Valid() && fresh(red) && fresh(blue)
      ensures board == StartPieces() && state == Unfinished && turn == Blue
      ensures red.remain == StartRoster(Red) && blue.remain == StartRoster(Blue)
      ensures !red.inCheck && !blue.inCheck
      ensures trackBlue == [Sq(3, 8), Sq(3, 9), Sq(4, 8), Sq(4, 10), Sq(5, 8), Sq(5, 9)]
      ensures trackRed == [Sq(3, 2), Sq(3, 3), Sq(4, 1), Sq(4, 3), Sq(5, 2), Sq(5, 3)]
    {
      board := StartPieces();
      state := Unfinished;
      turn := Blue;
      trackBlue := [Sq(3, 8), Sq(3, 9), Sq(4, 8), Sq(4, 10), Sq(5, 8), Sq(5, 9)];
      trackRed := [Sq(3, 2), Sq(3, 3), Sq(4, 1), Sq(4, 3), Sq(5, 2), Sq(5, 3)];
      blue := new Player(Blue);
      red := new Player(Red);
      new;
      StartIsValid(board, red.remain, blue.remain);
    }

    /** Empties square `at`. */
    method ClearBoard(at: Square)
      modifies this
      ensures board == old(board) - {at}
      ensures state == old(state) && turn == old(turn)
      ensures trackRed == old(trackRed) && trackBlue == old(trackBlue)
    {
      board := board - {at};
    }

    /** Puts `p` on square `at`, which must be a board square to take effect. */
    method MoveBoard(p: Piece, at: Square)
      modifies this
      ensures board == if OnBoard(at) then old(board)[at := p] else old(board)
      ensures state == old(state) && turn == old(turn)
      ensures trackRed == old(trackRed) && trackBlue == old(trackBlue)
    {
      if OnBoard(at) {
        board := board[at := p];
      }
    }

    /** Rebuilds the tracked squares of the General `p`, now on `at`: the
     *  squares of its palace it may move to, in palace order. */
    method TrackGeneral(p: Piece, at: Square)
      modifies this
      ensures TrackOf(p.owner) == Reachable(board, p, at, PalaceOf(p.owner))
      ensures TrackOf(Opponent(p.owner)) == old(TrackOf(Opponent(p.owner)))
      ensures board == old(board) && state == old(state) && turn == old(turn)
    {
      var palace := PalaceOf(p.owner);
      var track: seq<Square> := [];
      var i := 0;
      while i < |palace|
        invariant 0 <= i <= |palace|
        invariant track == Reachable(board, p, at, palace[..i])
      {
        assert palace[..i + 1][..i] == palace[..i];
        if ValidMove(board, p, at, palace[i]) {
          track := track + [palace[i]];
        }
        i := i + 1;
      }
      assert palace[..|palace|] == palace;
      if p.owner == Blue {
        trackBlue := track;
      } else {
        trackRed := track;
      }
    }

    /** The check detector for piece `p` on `at`: whether it, or any piece of
     *  its side, may move onto the opposing General; if so, the opposing
     *  side's in-check flag is raised. */
    method NextMove(p: Piece, at: Square) returns (check: bool)
      requires Valid()
      modifies PlayerOf(Opponent(p.owner))
      ensures Valid()
      ensures check <==> Checks(board, p, at, PlayerOf(p.owner).remain, PlayerOf(Opponent(p.owner)).remain)
      ensures PlayerOf(Opponent(p.owner)).inCheck == (check || old(PlayerOf(Opponent(p.owner)).inCheck))
      ensures red.remain == old(red.remain) && blue.remain == old(blue.remain)
      ensures PlayerOf(p.owner).inCheck == old(PlayerOf(p.owner).inCheck)
    {
      var own, opposing := PlayerOf(p.owner), PlayerOf(Opponent(p.owner));
      var gpos := GeneralPos(opposing.remain);
      if Reaches(board, p, at, gpos) {
        opposing.SetInCheck(true);
        return true;
      }
      check := ScanSide(board, own.remain, gpos);
      if check {
        opposing.SetInCheck(true);
      }
    }

    /** One square of TryAlly's scan: a move of `c` onto `target` refutes mate
     *  when the detector, asked again, no longer sees a check; capturing `p`
     *  on `at` refutes it outright. */
    method Probe(p: Piece, at: Square, c: Piece, cpos: Square, target: Square,
                 ghost g: Grid, ghost mine: Roster, ghost theirs: Roster, ghost check: bool)
      returns (refuted: bool)
      requires Valid() && board == g
      requires PlayerOf(p.owner).remain == mine && PlayerOf(Opponent(p.owner)).remain == theirs
      requires check == Checks(g, p, at, mine, theirs)
      modifies PlayerOf(Opponent(p.owner))
      ensures Valid()
      ensures red.remain == old(red.remain) && blue.remain == old(blue.remain)
      ensures PlayerOf(p.owner).inCheck == old(PlayerOf(p.owner).inCheck)
      ensures PlayerOf(Opponent(p.owner)).inCheck == old(PlayerOf(Opponent(p.owner)).inCheck) ||
              (check && PlayerOf(Opponent(p.owner)).inCheck)
      ensures refuted <==> (ValidMove(g, c, cpos, target) && !check) || ValidMove(g, c, cpos, at)
    {
      if ValidMove(board, c, cpos, target) {
        var stillCheck := NextMove(p, at);
        if !stillCheck {
          return true;
        }
      }
      return ValidMove(board, c, cpos, at);
    }

    /** Tries every board square as a move of the defending piece `c` on
     *  `cpos`: it refutes mate when it may capture `p` on `at`, or when it has
     *  a move while the check detector no longer sees a check. The detector's
     *  answer does not change along the way; `check` names it. */
    method TryAlly(p: Piece, at: Square, c: Piece, cpos: Square,
                   ghost g: Grid, ghost mine: Roster, ghost theirs: Roster, ghost check: bool)
      returns (refuted: bool)
      requires Valid() && board == g
      requires PlayerOf(p.owner).remain == mine && PlayerOf(Opponent(p.owner)).remain == theirs
      requires check == Checks(g, p, at, mine, theirs)
      modifies PlayerOf(Opponent(p.owner))
      ensures Valid()
      ensures red.remain == old(red.remain) && blue.remain == old(blue.remain)
      ensures PlayerOf(p.owner).inCheck == old(PlayerOf(p.owner).inCheck)
      ensures PlayerOf(Opponent(p.owner)).inCheck == old(PlayerOf(Opponent(p.owner)).inCheck) ||
              (check && PlayerOf(Opponent(p.owner)).inCheck)
      ensures refuted <==> ValidMove(g, c, cpos, at) || ((exists s :: ValidMove(g, c, cpos, s)) && !check)
    {
      var own, defender := PlayerOf(p.owner), PlayerOf(Opponent(p.owner));
      var all := AllSquares();
      var n := 0;
      while n < 90
        invariant 0 <= n <= 90
        invariant Valid() && board == g
        invariant own.remain == mine && defender.remain == theirs
        invariant red.remain == old(red.remain) && blue.remain == old(blue.remain)
        invariant own.inCheck == old(own.inCheck)
        invariant defender.inCheck == old(defender.inCheck) || (check && defender.inCheck)
        invariant n > 0 ==> !ValidMove(g, c, cpos, at)
        invariant !check ==> Reachable(g, c, cpos, all[..n]) == []
      {
        assert all[..n + 1][..n] == all[..n];
        refuted := Probe(p, at, c, cpos, all[n], g, mine, theirs, check);
        if refuted {
          return;
        }
        n := n + 1;
      }
      if !check {
        assert all[..90] == all;
        NoMoveOffTheList(g, c, cpos);
      }
      return false;
    }

    /** Runs TryAlly for every defending piece other than the General. */
    method AlliesRefute(p: Piece, at: Square, ghost g: Grid, ghost mine: Roster, ghost theirs: Roster,
                        ghost check: bool) returns (refuted: bool)
      requires Valid() && board == g
      requires PlayerOf(p.owner).remain == mine && PlayerOf(Opponent(p.owner)).remain == theirs
      requires check == Checks(g, p, at, mine, theirs)
      modifies PlayerOf(Opponent(p.owner))
      ensures Valid()
      ensures red.remain == old(red.remain) && blue.remain == old(blue.remain)
      ensures PlayerOf(p.owner).inCheck == old(PlayerOf(p.owner).inCheck)
      ensures PlayerOf(Opponent(p.owner)).inCheck == old(PlayerOf(Opponent(p.owner)).inCheck) ||
              (check && PlayerOf(Opponent(p.owner)).inCheck)
      ensures refuted <==> AllyReaches(g, theirs, at) || (AllyMoves(g, theirs) && !check)
    {
      var own, defender := PlayerOf(p.owner), PlayerOf(Opponent(p.owner));
      var todo := defender.remain.Keys;
      while todo != {}
        invariant todo <= theirs.Keys
        invariant Valid() && board == g
        invariant own.remain == mine && defender.remain == theirs
        invariant red.remain == old(red.remain) && blue.remain == old(blue.remain)
        invariant own.inCheck == old(own.inCheck)
        invariant defender.inCheck == old(defender.inCheck) || (check && defender.inCheck)
        invariant forall k :: k in theirs && k !in todo && theirs[k] in g && g[theirs[k]].role != General ==>
                    !ValidMove(g, g[theirs[k]], theirs[k], at) &&
                    (forall s :: ValidMove(g, g[theirs[k]], theirs[k], s) ==> check)
      {
        var k :| k in todo;
        var cpos := defender.remain[k];
        var c := board[cpos];
        if c.role != General {
          refuted := TryAlly(p, at, c, cpos, g, mine, theirs, check);
          if refuted {
            return;
          }
        }
        todo := todo - {k};
      }
      return false;
    }

    /** The checkmate search after piece `p`, now on `at`, has put the opposing
     *  General in check. The General's candidate squares are its tracked
     *  squares that `p` does not reach and that it may enter; a candidate
     *  survives when no attacking piece reaches it with the General lifted off
     *  the board. An allied piece that can capture `p` refutes mate, as does
     *  an allied move while the check has gone away. Mate, when found, ends
     *  the game in favour of `p`'s side. */
    method Checkmate(p: Piece, at: Square) returns (mate: bool)
      requires Valid()
      requires GeneralKey in PlayerOf(Opponent(p.owner)).remain
      modifies this, PlayerOf(Opponent(p.owner))
      ensures Valid()
      ensures board == old(board) && turn == old(turn)
      ensures trackRed == old(trackRed) && trackBlue == old(trackBlue)
      ensures red.remain == old(red.remain) && blue.remain == old(blue.remain)
      ensures PlayerOf(p.owner).inCheck == old(PlayerOf(p.owner).inCheck)
      ensures mate <==> old(MateFound(board, p, at, PlayerOf(p.owner).remain,
                                      PlayerOf(Opponent(p.owner)).remain, TrackOf(Opponent(p.owner))))
      ensures state == if mate then WinFor(p.owner) else old(state)
      ensures PlayerOf(Opponent(p.owner)).inCheck == old(PlayerOf(Opponent(p.owner)).inCheck) ||
              (old(Checks(board, p, at, PlayerOf(p.owner).remain, PlayerOf(Opponent(p.owner)).remain)) &&
               PlayerOf(Opponent(p.owner)).inCheck)
    {
      var own, defender := PlayerOf(p.owner), PlayerOf(Opponent(p.owner));
      var gpos := defender.remain[GeneralKey];
      var general := board[gpos];
      var candidates := FilterCandidates(board, p, at, general, gpos, TrackOf(defender.side));

      // Lift the General off the board and look for a candidate no attacker reaches.
      ghost var g0 := board;
      ClearBoard(gpos);
      var survivor := AnySurvivor(board, own.remain, candidates);
      MoveBoard(general, gpos);
      assert board == g0;

      var refuted := AlliesRefute(p, at, board, own.remain, defender.remain,
                                  Checks(board, p, at, own.remain, defender.remain));
      if refuted || survivor {
        return false;
      }
      state := WinFor(p.owner);
      return true;
    }

    /** Carries out a legal move of `p` from `from` to `to`: records the
     *  capture in the opposing roster, empties `from`, moves the mover's roster
     *  entry, puts `p` on `to` and, for a General, rebuilds its tracked squares. */
    method TentativeApply(p: Piece, from: Square, to: Square)
      requires Valid() && from in board && board[from] == p && OnBoard(to) && !OwnPieceAt(board, p.owner, to)
      modifies this, red, blue
      ensures Valid()
      ensures board == Applied(old(board), p, from, to)
      ensures PlayerOf(p.owner).remain == MoveEntry(old(PlayerOf(p.owner).remain), from, to)
      ensures PlayerOf(Opponent(p.owner)).remain ==
                AfterCapture(old(PlayerOf(Opponent(p.owner)).remain), old(board), to)
      ensures red.inCheck == old(red.inCheck) && blue.inCheck == old(blue.inCheck)
      ensures state == old(state) && turn == old(turn)
      ensures TrackOf(Opponent(p.owner)) == old(TrackOf(Opponent(p.owner)))
      ensures TrackOf(p.owner) == if p.role == General then Reachable(board, p, to, PalaceOf(p.owner))
                                  else old(TrackOf(p.owner))
    {
      ghost var g0, mine, theirs := board, PlayerOf(p.owner).remain, PlayerOf(Opponent(p.owner)).remain;
      var captured := SearchPos(board, to);
      if captured.Some? {
        PlayerOf(captured.value.owner).RemovePiece(to);
      }
      ClearBoard(from);
      PlayerOf(p.owner).UpdatePosition(from, to);
      MoveBoard(p, to);
      ApplyKeepsSquares(g0, p, from, to, mine, theirs);
      ApplyKeepsCover(g0, p, from, to, mine, theirs);
      if p.role == General {
        TrackGeneral(p, to);
      }
    }

    /** The self-check scan after a move by `side`: each opposing piece in turn
     *  is handed to the check detector, which asks whether it or any piece of
     *  its side may move onto `side`'s General. The first answer decides: a hit
     *  leaves `side`'s flag raised, a miss clears it. */
    method ExposureScan(side: Side) returns (exposed: bool)
      requires Valid()
      modifies PlayerOf(side)
      ensures Valid()
      ensures red.remain == old(red.remain) && blue.remain == old(blue.remain)
      ensures PlayerOf(Opponent(side)).inCheck == old(PlayerOf(Opponent(side)).inCheck)
      ensures exposed <==> SideReaches(board, PlayerOf(Opponent(side)).remain, GeneralPos(PlayerOf(side).remain))
      ensures PlayerOf(side).inCheck ==
                if exposed then true
                else if PlayerOf(Opponent(side)).remain == map[] then old(PlayerOf(side).inCheck)
                else false
    {
      var mover, other := PlayerOf(side), PlayerOf(Opponent(side));
      var r := other.remain;
      var todo := r.Keys;
      while todo != {}
        invariant todo <= r.Keys
        invariant Valid() && r == other.remain
        invariant red.remain == old(red.remain) && blue.remain == old(blue.remain)
        invariant other.inCheck == old(other.inCheck)
        invariant todo == r.Keys || (!SideReaches(board, r, GeneralPos(mover.remain)) && !mover.inCheck)
        invariant todo == r.Keys ==> mover.inCheck == old(mover.inCheck)
      {
        var k :| k in todo;
        var pos := r[k];
        var q := board[pos];
        assert Reaches(board, q, pos, GeneralPos(mover.remain)) ==> EntryReaches(board, r, k, GeneralPos(mover.remain));
        var hit := NextMove(q, pos);
        if hit {
          return true;
        }
        mover.SetInCheck(false);
        todo := todo - {k};
      }
      return false;
    }

    /** Undoes a move of `p` from `from` to `to` after it exposed its own
     *  General: the mover's roster entry and `p` go back to `from` and `to` is
     *  emptied. The captured piece would be added back only if `to` still held
     *  a piece once emptied, so it never is. */
    method Rollback(p: Piece, from: Square, to: Square)
      requires Valid() && to in board && board[to] == p && from !in board && OnBoard(from)
      modifies this, red, blue
      ensures Valid()
      ensures board == (old(board) - {to})[from := p]
      ensures PlayerOf(p.owner).remain == MoveEntry(old(PlayerOf(p.owner).remain), to, from)
      ensures PlayerOf(Opponent(p.owner)).remain == old(PlayerOf(Opponent(p.owner)).remain)
      ensures red.inCheck == old(red.inCheck) && blue.inCheck == old(blue.inCheck)
      ensures state == old(state) && turn == old(turn)
      ensures TrackOf(Opponent(p.owner)) == old(TrackOf(Opponent(p.owner)))
      ensures TrackOf(p.owner) == if p.role == General then Reachable(board, p, from, PalaceOf(p.owner))
                                  else old(TrackOf(p.owner))
    {
      ghost var g1, mine, theirs := board, PlayerOf(p.owner).remain, PlayerOf(Opponent(p.owner)).remain;
      PlayerOf(p.owner).UpdatePosition(to, from);
      ClearBoard(to);
      MoveBoard(p, from);
      // The captured piece is added back only when `to` still holds a piece,
      // which it no longer does: RestoreRemoved is never reached from here.
      assert SearchPos(board, to).None?;
      if p.role == General {
        TrackGeneral(p, from);
      }
      RollbackKeepsSquares(g1, p, from, to, mine, theirs);
      RollbackKeepsCover(g1, p, from, to, mine, theirs);
    }

    /** Nothing the game records has changed, except possibly whose turn it is. */
    twostate predicate Untouched()
      reads this, red, blue
    {
      board == old(board) && state == old(state) &&
      red.remain == old(red.remain) && blue.remain == old(blue.remain) &&
      red.inCheck == old(red.inCheck) && blue.inCheck == old(blue.inCheck) &&
      trackRed == old(trackRed) && trackBlue == old(trackBlue)
    }

    /** The state a legal move of `p` from `from` to `to` leaves behind, by
     *  how it ends (see MoveOutcome). A mate keeps the move, ends the game and
     *  keeps the turn; an exposing move is undone, except that the piece it
     *  captured stays off the board and out of its roster, and leaves the
     *  mover in check; any other move is kept and passes the turn. */
    twostate predicate MoveResolved(p: Piece, from: Square, to: Square, ok: bool)
      reads this, red, blue
    {
      var g1 := Applied(old(board), p, from, to);
      var rm := MoveEntry(old(PlayerOf(p.owner).remain), from, to);
      var ro := AfterCapture(old(PlayerOf(Opponent(p.owner)).remain), old(board), to);
      ResolvedAs(p, from, to, ok, MoveOutcome(g1, p, to, rm, ro, old(TrackOf(Opponent(p.owner)))),
                 Checks(g1, p, to, rm, ro))
    }

    /** MoveResolved for a known `outcome`, the check detector having answered
     *  `check` right after the move was applied. */
    twostate predicate ResolvedAs(p: Piece, from: Square, to: Square, ok: bool, outcome: Outcome, check: bool)
      reads this, red, blue
    {
      var mover, other := PlayerOf(p.owner), PlayerOf(Opponent(p.owner));
      var g1 := Applied(old(board), p, from, to);
      var rm := MoveEntry(old(mover.remain), from, to);
      var ro := AfterCapture(old(other.remain), old(board), to);
      (ok <==> outcome != Exposed) &&
      (outcome == Exposed ==> board == old(board) - {to} && mover.remain == old(mover.remain) && mover.inCheck) &&
      (outcome != Exposed ==> board == g1 && mover.remain == rm) &&
      other.remain == ro &&
      state == (if outcome == Mate then WinFor(p.owner) else old(state)) &&
      turn == (if outcome == Committed then Opponent(old(turn)) else old(turn)) &&
      (outcome == Mate ==> mover.inCheck == old(mover.inCheck)) &&
      (outcome == Committed ==> mover.inCheck == (if ro == map[] then old(mover.inCheck) else false)) &&
      (other.inCheck <==> old(other.inCheck) || check) &&
      TrackOf(Opponent(p.owner)) == old(TrackOf(Opponent(p.owner))) &&
      TrackOf(p.owner) == if p.role != General then old(TrackOf(p.owner))
                          else Reachable(board, p, if outcome == Exposed then from else to, PalaceOf(p.owner))
    }

    /** A legal move once validated: apply it, run the check detector and,
     *  on a check, the checkmate search; unless mate ended the game, scan for
     *  self-check and either roll back or pass the turn. The ghost results
     *  report the three answers: the detector's, the search's and the scan's. */
    method Play(p: Piece, from: Square, to: Square) returns (ok: bool, ghost check: bool, ghost mate: bool,
                                                             ghost exposed: bool)
      requires Valid() && from in board && board[from] == p && OnBoard(to) && !OwnPieceAt(board, p.owner, to)
      modifies this, red, blue
      ensures Valid()
      ensures var g1 := Applied(old(board), p, from, to);
              var rm := MoveEntry(old(PlayerOf(p.owner).remain), from, to);
              var ro := AfterCapture(old(PlayerOf(Opponent(p.owner)).remain), old(board), to);
              check == Checks(g1, p, to, rm, ro) &&
              (check ==> GeneralKey in ro && ro[GeneralKey] in g1 &&
                         mate == MateFound(g1, p, to, rm, ro, old(TrackOf(Opponent(p.owner))))) &&
              exposed == SideReaches(g1, ro, GeneralPos(rm))
      ensures ResolvedAs(p, from, to, ok, Answered(check, mate, exposed), check)
    {
      ghost var g0, mine0 := board, PlayerOf(p.owner).remain;
      ghost var g1, rm := Applied(g0, p, from, to), MoveEntry(mine0, from, to);
      ghost var ro := AfterCapture(PlayerOf(Opponent(p.owner)).remain, g0, to);
      ghost var track := TrackOf(Opponent(p.owner));
      TentativeApply(p, from, to);
      exposed := SideReaches(g1, ro, GeneralPos(rm));
      var hit, found := Detect(p, to, g1, rm, ro, track);
      check, mate := hit, found;
      if found {
        return true, check, mate, exposed;
      }
      assert forall k :: k in mine0 ==> mine0[k] != to;
      ok := Finish(p, from, to, g0, mine0, ro);
    }

    /** The check detector on the piece `p` just moved to `at` and, when it
     *  reports a check, the checkmate search; `g`, `mine`, `theirs` and
     *  `track` name the board, both rosters and the defender's tracked
     *  squares at the time of the call. */
    method Detect(p: Piece, at: Square, ghost g: Grid, ghost mine: Roster, ghost theirs: Roster,
                  ghost track: seq<Square>) returns (check: bool, mate: bool)
      requires Valid() && board == g
      requires PlayerOf(p.owner).remain == mine && PlayerOf(Opponent(p.owner)).remain == theirs
      requires TrackOf(Opponent(p.owner)) == track
      modifies this, PlayerOf(Opponent(p.owner))
      ensures Valid()
      ensures board == g && turn == old(turn)
      ensures trackRed == old(trackRed) && trackBlue == old(trackBlue)
      ensures red.remain == old(red.remain) && blue.remain == old(blue.remain)
      ensures PlayerOf(p.owner).inCheck == old(PlayerOf(p.owner).inCheck)
      ensures check == Checks(g, p, at, mine, theirs)
      ensures check ==> GeneralKey in theirs && theirs[GeneralKey] in g
      ensures mate <==> check && MateFound(g, p, at, mine, theirs, track)
      ensures state == if mate then WinFor(p.owner) else old(state)
      ensures old(PlayerOf(Opponent(p.owner)).inCheck) || check ==> PlayerOf(Opponent(p.owner)).inCheck
      ensures PlayerOf(Opponent(p.owner)).inCheck ==> old(PlayerOf(Opponent(p.owner)).inCheck) || check
    {
      check := NextMove(p, at);
      mate := false;
      if check {
        mate := Checkmate(p, at);
      }
    }

    /** The end of a move that did not mate: the self-check scan, then either
     *  the rollback or the change of turn. */
    method Finish(p: Piece, from: Square, to: Square, ghost g0: Grid, ghost mine0: Roster, ghost theirs: Roster)
      returns (ok: bool)
      requires Valid() && from != to && from in g0 && g0[from] == p && OnBoard(from)
      requires board == Applied(g0, p, from, to)
      requires PlayerOf(p.owner).remain == MoveEntry(mine0, from, to)
      requires PlayerOf(Opponent(p.owner)).remain == theirs
      requires forall k :: k in mine0 ==> mine0[k] != to
      modifies this, red, blue
      ensures Valid()
      ensures ok <==> !SideReaches(Applied(g0, p, from, to), theirs, GeneralPos(MoveEntry(mine0, from, to)))
      ensures PlayerOf(Opponent(p.owner)).remain == old(PlayerOf(Opponent(p.owner)).remain)
      ensures PlayerOf(Opponent(p.owner)).inCheck == old(PlayerOf(Opponent(p.owner)).inCheck)
      ensures state == old(state)
      ensures TrackOf(Opponent(p.owner)) == old(TrackOf(Opponent(p.owner)))
      ensures !ok ==> board == g0 - {to} && PlayerOf(p.owner).remain == mine0 && PlayerOf(p.owner).inCheck &&
                      turn == old(turn) &&
                      TrackOf(p.owner) == if p.role == General then Reachable(board, p, from, PalaceOf(p.owner))
                                          else old(TrackOf(p.owner))
      ensures ok ==> board == old(board) && PlayerOf(p.owner).remain == old(PlayerOf(p.owner).remain) &&
                     turn == Opponent(old(turn)) && TrackOf(p.owner) == old(TrackOf(p.owner)) &&
                     PlayerOf(p.owner).inCheck ==
                       if PlayerOf(Opponent(p.owner)).remain == map[] then old(PlayerOf(p.owner).inCheck) else false
    {
      var exposed := ExposureScan(p.owner);
      if exposed {
        MoveEntryRoundTrip(mine0, from, to);
        RollbackDropsCapture(g0, p, from, to);
        Rollback(p, from, to);
        return false;
      }
      turn := Opponent(turn);
      return true;
    }

    /** Moves the piece on `from` to `to`, or passes when the two are equal.
     *  A pass needs only a piece on `from` whose owner is not in check; a move
     *  needs a piece of the side to play, a legal move and an unfinished game. */
    method MakeMove(from: Square, to: Square) returns (ok: bool)
      requires Valid()
      modifies this, red, blue
      ensures Valid()
      ensures old(SearchPos(board, from)).None? ==> !ok && Untouched() && turn == old(turn)
      ensures old(SearchPos(board, from)).Some? && from == to ==>
                var p := old(SearchPos(board, from)).value;
                (ok <==> !old(PlayerOf(p.owner).inCheck)) && Untouched() &&
                turn == if ok then Opponent(old(turn)) else old(turn)
      ensures old(SearchPos(board, from)).Some? && from != to ==>
                var p := old(SearchPos(board, from)).value;
                if p.owner == old(turn) && old(ValidMove(board, p, from, to)) && old(state) == Unfinished
                then MoveResolved(p, from, to, ok)
                else !ok && Untouched() && turn == old(turn)
    {
      var found := SearchPos(board, from);
      if found.None? {
        return false;
      }
      var p := found.value;
      if from == to {
        if PlayerOf(p.owner).inCheck {
          return false;
        }
        turn := Opponent(turn);
        return true;
      }
      if p.owner != turn || !ValidMove(board, p, from, to) || state != Unfinished {
        return false;
      }
      ghost var check, mate, exposed;
      ok, check, mate, exposed := Play(p, from, to);
      OutcomeFromAnswers(Applied(old(board), p, from, to), p, to,
                         MoveEntry(old(PlayerOf(p.owner).remain), from, to),
                         AfterCapture(old(PlayerOf(Opponent(p.owner)).remain), old(board), to),
                         old(TrackOf(Opponent(p.owner))), check, mate, exposed);
    }
  }

  /** Undoing a move restores the board except for the square moved to: a
   *  piece that was captured there stays off the board. */
  lemma RollbackDropsCapture(g: Grid, p: Piece, from: Square, to: Square)
    requires from in g && g[from] == p && from != to
    ensures (Applied(g, p, from, to) - {to})[from := p] == g - {to}
  {
  }

  /** Applying a legal move keeps every roster entry on a square of its side. */
  lemma ApplyKeepsSquares(g: Grid, p: Piece, from: Square, to: Square, mine: Roster, theirs: Roster)
    requires WellFormed(g) && from in g && g[from] == p && OnBoard(to) && !OwnPieceAt(g, p.owner, to)
    requires OnItsSquares(g, mine, p.owner) && OnItsSquares(g, theirs, Opponent(p.owner))
    ensures WellFormed(Applied(g, p, from, to))
    ensures OnItsSquares(Applied(g, p, from, to), MoveEntry(mine, from, to), p.owner)
    ensures OnItsSquares(Applied(g, p, from, to), AfterCapture(theirs, g, to), Opponent(p.owner))
  {
    assert forall k :: k in mine ==> mine[k] != to;
    MoveEntryInjective(mine, from, to);
  }

  /** Applying a legal move keeps every piece on the board recorded in its
   *  owner's roster. */
  lemma ApplyKeepsCover(g: Grid, p: Piece, from: Square, to: Square, mine: Roster, theirs: Roster)
    requires from in g && g[from] == p && !OwnPieceAt(g, p.owner, to) && OnBoard(to)
    requires Covers(g, mine, p.owner) && Covers(g, theirs, Opponent(p.owner))
    ensures Covers(Applied(g, p, from, to), MoveEntry(mine, from, to), p.owner)
    ensures Covers(Applied(g, p, from, to), AfterCapture(theirs, g, to), Opponent(p.owner))
  {
    var g1, rm, ro := Applied(g, p, from, to), MoveEntry(mine, from, to), AfterCapture(theirs, g, to);
    forall s ensures Recorded(g1, rm, p.owner, s) {
      if s in g1 && g1[s].owner == p.owner {
        var was := if s == to then from else s;
        assert Recorded(g, mine, p.owner, was);
        var k :| k in mine && mine[k] == was;
        assert rm[k] == s;
      }
    }
    forall s ensures Recorded(g1, ro, Opponent(p.owner), s) {
      if s in g1 && g1[s].owner == Opponent(p.owner) {
        assert Recorded(g, theirs, Opponent(p.owner), s);
        var k :| k in theirs && theirs[k] == s;
        assert ro[k] == s;
      }
    }
  }

  /** Moving the piece back from `to` to the empty square `from` keeps every
   *  roster entry on a square of its side. */
  lemma RollbackKeepsSquares(g: Grid, p: Piece, from: Square, to: Square, mine: Roster, theirs: Roster)
    requires WellFormed(g) && to in g && g[to] == p && from !in g && OnBoard(from)
    requires OnItsSquares(g, mine, p.owner) && OnItsSquares(g, theirs, Opponent(p.owner))
    ensures WellFormed((g - {to})[from := p])
    ensures OnItsSquares((g - {to})[from := p], MoveEntry(mine, to, from), p.owner)
    ensures OnItsSquares((g - {to})[from := p], theirs, Opponent(p.owner))
  {
    MoveEntryInjective(mine, to, from);
  }

  /** Moving the piece back from `to` to the empty square `from` keeps every
   *  piece on the board recorded in its owner's roster. */
  lemma RollbackKeepsCover(g: Grid, p: Piece, from: Square, to: Square, mine: Roster, theirs: Roster)
    requires to in g && g[to] == p && from !in g
    requires Covers(g, mine, p.owner) && Covers(g, theirs, Opponent(p.owner))
    ensures Covers((g - {to})[from := p], MoveEntry(mine, to, from), p.owner)
    ensures Covers((g - {to})[from := p], theirs, Opponent(p.owner))
  {
    var g1, rm := (g - {to})[from := p], MoveEntry(mine, to, from);
    forall s ensures Recorded(g1, rm, p.owner, s) {
      if s in g1 && g1[s].owner == p.owner {
        var was := if s == from then to else s;
        assert Recorded(g, mine, p.owner, was);
        var k :| k in mine && mine[k] == was;
        assert rm[k] == s;
      }
    }
    forall s ensures Recorded(g1, theirs, Opponent(p.owner), s) {
      assert Recorded(g, theirs, Opponent(p.owner), s);
    }
  }

  lemma StartIsValid(g: Grid, red: Roster, blue: Roster)
    requires g == StartPieces() && red == StartRoster(Red) && blue == StartRoster(Blue)
    ensures OnItsSquares(g, red, Red) && OnItsSquares(g, blue, Blue)
    ensures Covers(g, red, Red) && Covers(g, blue, Blue)
  {
    StartRosterOnBoard(Red);
    StartRosterOnBoard(Blue);
    StartRosterInjective(Red);
    StartRosterInjective(Blue);
    StartRosterCovers(Red);
    StartRosterCovers(Blue);
  }

  /** Every piece of the starting layout has its side's starting entry. */
  lemma StartRosterCovers(side: Side)
    ensures Covers(StartPieces(), StartRoster(side), side)
  {
    var r := StartRoster(side);
    forall s ensures Recorded(StartPieces(), r, side, s) {
      if s in StartPieces() && StartPieces()[s].owner == side {
        StartOccupancy(s);
        StartEntry(side, s);
      }
    }
  }

  /** A starting square of `side` is the square of its label in the starting roster. */
  lemma StartEntry(side: Side, s: Square)
    requires StartSquare(s) && side == (if s.rank <= 5 then Red else Blue)
    ensures StartLabel(side, s) in StartRoster(side) && StartRoster(side)[StartLabel(side, s)] == s
  {
    var r, k := StartRoster(side), StartLabel(side, s);
    if s.rank == 1 || s.rank == 10 {
      if s.file < 4 {
        assert s.file in {0, 1, 2, 3};
      } else {
        assert s.file in {5, 6, 7, 8};
      }
    } else if s.rank == 4 || s.rank == 7 {
      assert k == Label(Soldier, s.file / 2 + 1);
      assert s.file in {0, 2, 4, 6, 8};
    }
  }

  lemma StartRosterOnBoard(side: Side)
    ensures forall k :: k in StartRoster(side) ==>
              StartRoster(side)[k] in StartPieces() && StartPieces()[StartRoster(side)[k]].owner == side
  {
    var r := StartRoster(side);
    forall k | k in r ensures r[k] in StartPieces() && StartPieces()[r[k]].owner == side {
      StartOccupancy(r[k]);
    }
  }

  /** The label of the piece a side starts with on square `s`. */
  function StartLabel(side: Side, s: Square): Key {
    var home, back, cannons := if side == Red then 1 else 10, if side == Red then 2 else 9,
                               if side == Red then 3 else 8;
    if s.rank == back then GeneralKey
    else if s.rank == cannons then Label(Cannon, if s.file == 1 then 1 else 2)
    else if s.rank == home then
      (if s.file == 0 then Label(Chariot, 1) else if s.file == 1 then Label(Elephant, 1)
       else if s.file == 2 then Label(Horse, 1) else if s.file == 3 then Label(Guard, 1)
       else if s.file == 5 then Label(Guard, 2) else if s.file == 6 then Label(Elephant, 2)
       else if s.file == 7 then Label(Horse, 2) else Label(Chariot, 2))
    else Label(Soldier, if s.file < 0 then 1 else s.file / 2 + 1)
  }

  lemma StartRosterInjective(side: Side)
    ensures Injective(StartRoster(side))
  {
    var r := StartRoster(side);
    assert forall k :: k in r ==> StartLabel(side, r[k]) == k;
  }
}
