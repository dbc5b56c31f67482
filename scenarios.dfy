/**
 * Concrete positions from the opening of the example game shipped with the
 * engine, and small boards for the Cannon's screen rules, all checked
 * against the move rules.
 */
module Scenarios {
  import opened Board
  import opened Movement
  import opened Game

  /** The board after Soldier c7-c6, the example game's first move. */
  function AfterSoldier(): Grid {
    Applied(StartPieces(), Piece(Soldier, Blue), Sq(2, 7), Sq(2, 6))
  }

  /** The board after the reply Horse c1-d3. */
  function AfterHorse(): Grid {
    Applied(AfterSoldier(), Piece(Horse, Red), Sq(2, 1), Sq(3, 3))
  }

  /** The board after the third move, Elephant b10-d7. */
  function Opening(): Grid {
    Applied(AfterHorse(), Piece(Elephant, Blue), Sq(1, 10), Sq(3, 7))
  }

  /** The first move, Soldier c7-c6, is a legal step forward onto an empty square. */
  lemma SoldierOpensLegally()
    ensures !Occupied(StartPieces(), Sq(2, 6))
    ensures ValidMove(StartPieces(), Piece(Soldier, Blue), Sq(2, 7), Sq(2, 6))
  {
    StartOccupancy(Sq(2, 6));
  }

  /** The second move, Horse c1-d3, is a legal Horse leap: c2 is empty. */
  lemma HorseRepliesLegally()
    ensures HorseLeap(AfterSoldier(), Sq(2, 1), Sq(3, 3))
    ensures ValidMove(AfterSoldier(), Piece(Horse, Red), Sq(2, 1), Sq(3, 3))
  {
    StartOccupancy(Sq(2, 2));
    StartOccupancy(Sq(3, 3));
    assert HorseFileLeap(AfterSoldier(), Sq(2, 1), Sq(3, 3));
  }

  /** The third move, Elephant b10-d7, is a legal Elephant leap: b9 and c8 are empty. */
  lemma ElephantFollowsLegally()
    ensures ElephantLeap(AfterHorse(), Sq(1, 10), Sq(3, 7))
    ensures ElephantMove(AfterHorse(), Blue, Sq(1, 10), Sq(3, 7))
  {
    StartOccupancy(Sq(3, 7));
    ElephantPathIsClear();
  }

  /** The Elephant's two traversed squares, b9 and c8, are empty. */
  lemma ElephantPathIsClear()
    ensures ElephantFileLeap(AfterHorse(), Sq(1, 10), Sq(3, 7))
  {
    StartOccupancy(Sq(1, 9));
    StartOccupancy(Sq(2, 8));
  }

  /** The fourth move, Cannon b3-e3, jumps the Horse just brought to d3. */
  lemma CannonJumpsTheHorse()
    ensures Opening()[Sq(3, 3)] == Piece(Horse, Red)
    ensures CannonMove(Opening(), Red, Sq(1, 3), Sq(4, 3))
  {
    StartOccupancy(Sq(4, 3));
    CannonMoveSpec(Opening(), Red, Sq(1, 3), Sq(4, 3));
    OffDiagonal(Sq(1, 3), Sq(4, 3));
    HorseIsTheOnlyScreen();
  }

  /** After the opening the Horse on d3 is the one piece between b3 and e3. */
  lemma HorseIsTheOnlyScreen()
    ensures OnlyScreen(Opening(), Sq(1, 3), Sq(3, 3), Sq(4, 3))
  {
    StartOccupancy(Sq(2, 3));
    forall t | StrictlyBetween(Sq(1, 3), t, Sq(4, 3)) && Occupied(Opening(), t) ensures t == Sq(3, 3) {
      assert t == Sq(2, 3) || t == Sq(3, 3);
    }
  }

  /** From the starting position the same Cannon move is illegal: nothing
   *  stands between b3 and e3 to jump. */
  lemma CannonNeedsAScreen()
    ensures !CannonMove(StartPieces(), Red, Sq(1, 3), Sq(4, 3))
  {
    StartOccupancy(Sq(2, 3));
    StartOccupancy(Sq(3, 3));
    StartOccupancy(Sq(4, 3));
    CannonMoveSpec(StartPieces(), Red, Sq(1, 3), Sq(4, 3));
    OffDiagonal(Sq(1, 3), Sq(4, 3));
    forall s | StrictlyBetween(Sq(1, 3), s, Sq(4, 3)) ensures !Occupied(StartPieces(), s) {
      assert s == Sq(2, 3) || s == Sq(3, 3);
    }
  }

  /** At the start the Red Elephant on b1 cannot reach e3: its first step, c1,
   *  holds the Red Horse. */
  lemma ElephantBlockedByHorse()
    ensures !Occupied(StartPieces(), Sq(4, 3))
    ensures !ValidMove(StartPieces(), Piece(Elephant, Red), Sq(1, 1), Sq(4, 3))
  {
    StartOccupancy(Sq(4, 3));
    StartOccupancy(Sq(2, 1));
  }

  /** A Red Cannon on e3 with one Blue Soldier on e7 between it and the Blue
   *  General on e9 may capture the General. */
  lemma CannonReachesOverOneScreen()
    ensures CannonMove(OneScreen(), Red, Sq(4, 3), Sq(4, 9))
  {
    CannonMoveSpec(OneScreen(), Red, Sq(4, 3), Sq(4, 9));
    OffDiagonal(Sq(4, 3), Sq(4, 9));
    SoldierIsTheOnlyScreen();
  }

  /** On that board the Soldier on e7 is the one piece between e3 and e9. */
  lemma SoldierIsTheOnlyScreen()
    ensures OnlyScreen(OneScreen(), Sq(4, 3), Sq(4, 7), Sq(4, 9))
  {
    forall t | StrictlyBetween(Sq(4, 3), t, Sq(4, 9)) && Occupied(OneScreen(), t) ensures t == Sq(4, 7) {
      assert t in OneScreen();
    }
  }

  /** The Cannon on e3, a Blue Soldier on e7 and the Blue General on e9. */
  function OneScreen(): Grid {
    map[Sq(4, 3) := Piece(Cannon, Red), Sq(4, 7) := Piece(Soldier, Blue), Sq(4, 9) := Piece(General, Blue)]
  }

  /** The same file with a Red Soldier added on e5. */
  function TwoScreens(): Grid {
    OneScreen()[Sq(4, 5) := Piece(Soldier, Red)]
  }

  /** The same file with a Blue Cannon on e7 in place of the Soldier. */
  function CannonAsScreenBoard(): Grid {
    OneScreen()[Sq(4, 7) := Piece(Cannon, Blue)]
  }

  /** A second piece on the file between them takes the capture away. */
  lemma TwoScreensBlockTheCannon()
    ensures !CannonMove(TwoScreens(), Red, Sq(4, 3), Sq(4, 9))
  {
    CannonMoveSpec(TwoScreens(), Red, Sq(4, 3), Sq(4, 9));
    OffDiagonal(Sq(4, 3), Sq(4, 9));
    NoSingleScreen();
  }

  /** With two pieces between e3 and e9 no square is the only screen. */
  lemma NoSingleScreen()
    ensures forall s :: !OnlyScreen(TwoScreens(), Sq(4, 3), s, Sq(4, 9))
  {
    var g := TwoScreens();
    forall s ensures !OnlyScreen(g, Sq(4, 3), s, Sq(4, 9)) {
      assert StrictlyBetween(Sq(4, 3), Sq(4, 5), Sq(4, 9)) && Occupied(g, Sq(4, 5));
      assert StrictlyBetween(Sq(4, 3), Sq(4, 7), Sq(4, 9)) && Occupied(g, Sq(4, 7));
    }
  }

  /** A Cannon cannot serve as the screen on a file. */
  lemma CannonCannotScreenCannon()
    ensures !CannonMove(CannonAsScreenBoard(), Red, Sq(4, 3), Sq(4, 9))
  {
    var g := CannonAsScreenBoard();
    CannonMoveSpec(g, Red, Sq(4, 3), Sq(4, 9));
    OffDiagonal(Sq(4, 3), Sq(4, 9));
    forall s | OnlyScreen(g, Sq(4, 3), s, Sq(4, 9)) ensures g[s].role == Cannon {
      assert StrictlyBetween(Sq(4, 3), Sq(4, 7), Sq(4, 9)) && Occupied(g, Sq(4, 7));
    }
  }
}
