/**
 * Each side's roster: the pieces it still has, keyed by label, with their
 * squares, and the side's in-check flag. The game keeps one roster object per
 * side; both behave identically and differ only in their starting entries.
 */
module Rosters {
  import opened Board

  /** A roster key. The game labels its pieces "General", "Chariot1",
   *  "Chariot2", ..., written here as (role, number) with number 0 for the
   *  General. When a removed piece is added back, the game keys it by the
   *  piece's role accessor rather than by a label, a key equal to no label.
   *  `RoleAccessor(piece)` stands for that accessor; since a piece here is
   *  only its role and owner, it gives one key to all pieces of the same role
   *  and side, where the game's accessors differ from object to object. The
   *  model never reaches that path (see Rollback), so the merge is not seen. */
  datatype Key = Label(role: Role, n: nat) | RoleAccessor(piece: Piece)

  const GeneralKey: Key := Label(General, 0)

  type Roster = map<Key, Square>

  /** The roster after deleting every entry that stands on `at`. */
  function RemoveAt(r: Roster, at: Square): (r': Roster)
    ensures forall k :: k in r' <==> k in r && r[k] != at
    ensures forall k :: k in r' ==> r'[k] == r[k]
  {
    map k | k in r && r[k] != at :: r[k]
  }

  /** The roster after moving every entry that stands on `at` to `to`. */
  function MoveEntry(r: Roster, at: Square, to: Square): (r': Roster)
    ensures r'.Keys == r.Keys
    ensures forall k :: k in r' && r[k] != at ==> r'[k] == r[k]
    ensures forall k :: k in r' && r[k] == at ==> r'[k] == to
  {
    map k | k in r :: if r[k] == at then to else r[k]
  }

  /** No two entries share a square. */
  predicate Injective(r: Roster) {
    forall k, k' :: k in r && k' in r && r[k] == r[k'] ==> k == k'
  }

  /** Moving an entry to an unused square and back restores the roster. */
  lemma MoveEntryRoundTrip(r: Roster, at: Square, to: Square)
    requires forall k :: k in r ==> r[k] != to
    ensures MoveEntry(MoveEntry(r, at, to), to, at) == r
  {
    var back := MoveEntry(MoveEntry(r, at, to), to, at);
    assert forall k :: k in r ==> back[k] == r[k];
  }

  /** Moving one entry to an unused square keeps the roster injective. */
  lemma MoveEntryInjective(r: Roster, at: Square, to: Square)
    requires Injective(r)
    requires forall k :: k in r ==> r[k] != to
    ensures Injective(MoveEntry(r, at, to))
  {
    var r' := MoveEntry(r, at, to);
    forall k, k' | k in r' && k' in r' && r'[k] == r'[k'] ensures k == k' {
      if r[k] == at || r[k'] == at {
        assert r[k] == at && r[k'] == at;
      }
    }
  }

  /** The labels and squares a side starts with. */
  function StartRoster(side: Side): (r: Roster)
    ensures GeneralKey in r
    ensures r[GeneralKey] == PalaceCentre(side)
  {
    var home, back, cannons, soldiers := if side == Red then 1 else 10, if side == Red then 2 else 9,
                                         if side == Red then 3 else 8, if side == Red then 4 else 7;
    map[
      Label(Chariot, 1) := Sq(0, home), Label(Elephant, 1) := Sq(1, home), Label(Horse, 1) := Sq(2, home),
      Label(Guard, 1) := Sq(3, home), GeneralKey := Sq(4, back), Label(Guard, 2) := Sq(5, home),
      Label(Elephant, 2) := Sq(6, home), Label(Horse, 2) := Sq(7, home), Label(Chariot, 2) := Sq(8, home),
      Label(Cannon, 1) := Sq(1, cannons), Label(Cannon, 2) := Sq(7, cannons),
      Label(Soldier, 1) := Sq(0, soldiers), Label(Soldier, 2) := Sq(2, soldiers), Label(Soldier, 3) := Sq(4, soldiers),
      Label(Soldier, 4) := Sq(6, soldiers), Label(Soldier, 5) := Sq(8, soldiers)
    ]
  }

  /** One side's roster object. */
  class Player {
    const side: Side
    var inCheck: bool
    var remain: Roster

    constructor (side: Side)
      ensures this.side == side && !inCheck && remain == StartRoster(side)
    {
      this.side := side;
      inCheck := false;
      remain := StartRoster(side);
    }

    /** Deletes the captured piece standing on `at`. */
    method RemovePiece(at: Square)
      modifies this
      ensures remain == RemoveAt(old(remain), at)
      ensures inCheck == old(inCheck)
    {
      remain := RemoveAt(remain, at);
    }

    /** Records that the piece standing on `at` now stands on `to`. */
    method UpdatePosition(at: Square, to: Square)
      modifies this
      ensures remain == MoveEntry(old(remain), at, to)
      ensures inCheck == old(inCheck)
    {
      remain := MoveEntry(remain, at, to);
    }

    /** Adds a removed piece back, keyed by its role accessor. */
    method RestoreRemoved(p: Piece, at: Square)
      modifies this
      ensures remain == old(remain)[RoleAccessor(p) := at]
      ensures inCheck == old(inCheck)
    {
      remain := remain[RoleAccessor(p) := at];
    }

    method SetInCheck(status: bool)
      modifies this
      ensures inCheck == status && remain == old(remain)
    {
      inCheck := status;
    }
  }
}
