/**
 * The 9 x 10 Janggi board: squares, sides, roles, pieces, palaces and the
 * board itself as a map from squares to the pieces standing on them.
 *
 * A square is a (file, rank) pair of integers: file 0..8 stands for the
 * letters a..i and rank 1..10 for the numerals, so "e2" is Sq(4, 2).
 * Squares that the game builds off the board (file '`' or 'j', rank 0 or 11)
 * are ordinary Square values for which OnBoard is false.
 */
module Board {

  datatype Option<T> = None | Some(value: T)

  datatype Square = Sq(file: int, rank: int)

  datatype Side = Red | Blue

  datatype Role = General | Guard | Horse | Elephant | Chariot | Cannon | Soldier

  datatype Piece = Piece(role: Role, owner: Side)

  /** Occupied squares only; a square that is not a key is empty. */
  type Grid = map<Square, Piece>

  datatype GameState = Unfinished | RedWon | BlueWon

  function Opponent(s: Side): (o: Side)
    ensures o != s
  {
    if s == Red then Blue else Red
  }

  predicate OnBoard(s: Square) {
    0 <= s.file <= 8 && 1 <= s.rank <= 10
  }

  /** The squares of the board in the order the game lists them: a1..a10, b1..b10, ..., i1..i10. */
  function AllSquares(): (all: seq<Square>)
    ensures |all| == 90
    ensures forall s :: s in all <==> OnBoard(s)
  {
    var all := seq(90, i requires 0 <= i < 90 => Sq(i / 10, i % 10 + 1));
    assert forall s :: OnBoard(s) ==> all[s.file * 10 + s.rank - 1] == s;
    all
  }

  /** Red's palace, in the order the game lists it. */
  const RedPalace: seq<Square> :=
    [Sq(3, 1), Sq(3, 2), Sq(3, 3), Sq(4, 1), Sq(4, 2), Sq(4, 3), Sq(5, 1), Sq(5, 2), Sq(5, 3)]

  /** Blue's palace, in the order the game lists it. */
  const BluePalace: seq<Square> :=
    [Sq(3, 8), Sq(3, 9), Sq(3, 10), Sq(4, 8), Sq(4, 9), Sq(4, 10), Sq(5, 8), Sq(5, 9), Sq(5, 10)]

  function PalaceOf(side: Side): seq<Square> {
    if side == Red then RedPalace else BluePalace
  }

  /** The 3 x 3 zone of files d..f on ranks 1..3 (Red) or 8..10 (Blue). */
  predicate InPalace(side: Side, s: Square) {
    3 <= s.file <= 5 &&
    if side == Red then 1 <= s.rank <= 3 else 8 <= s.rank <= 10
  }

  lemma PalaceListIsPalace(side: Side, s: Square)
    ensures s in PalaceOf(side) <==> InPalace(side, s)
  {
  }

  /** The centre of a palace: e2 for Red, e9 for Blue. */
  function PalaceCentre(side: Side): (c: Square)
    ensures InPalace(side, c)
  {
    if side == Red then Sq(4, 2) else Sq(4, 9)
  }

  /** The squares of both palaces that lie next to the centre but on no marked
   *  diagonal; a one-step move between two of them is a forbidden diagonal. */
  const NoDiagonal: seq<Square> :=
    [Sq(3, 2), Sq(4, 1), Sq(4, 3), Sq(5, 2), Sq(3, 9), Sq(4, 8), Sq(4, 10), Sq(5, 9)]

  /** The four marked palace diagonals, each listed corner, centre, corner. */
  const Diagonals: seq<seq<Square>> :=
    [[Sq(3, 8), Sq(4, 9), Sq(5, 10)],
     [Sq(3, 10), Sq(4, 9), Sq(5, 8)],
     [Sq(3, 1), Sq(4, 2), Sq(5, 3)],
     [Sq(3, 3), Sq(4, 2), Sq(5, 1)]]

  /** The piece on a square, as the game's square lookup answers it:
   *  nothing for an empty square or a square that is not on the board. */
  function SearchPos(g: Grid, s: Square): (r: Option<Piece>)
    ensures r.Some? <==> OnBoard(s) && s in g
    ensures r.Some? ==> r.value == g[s]
  {
    if OnBoard(s) && s in g then Some(g[s]) else None
  }

  predicate Occupied(g: Grid, s: Square) {
    SearchPos(g, s).Some?
  }

  predicate OwnPieceAt(g: Grid, side: Side, s: Square) {
    Occupied(g, s) && g[s].owner == side
  }

  /** Every key of the map is a board square. */
  predicate WellFormed(g: Grid) {
    forall s :: s in g ==> OnBoard(s)
  }

  /** The starting layout of both sides. */
  function StartPieces(): (g: Grid)
    ensures WellFormed(g)
  {
    map[
      Sq(0, 1) := Piece(Chariot, Red), Sq(1, 1) := Piece(Elephant, Red), Sq(2, 1) := Piece(Horse, Red),
      Sq(3, 1) := Piece(Guard, Red), Sq(4, 2) := Piece(General, Red), Sq(5, 1) := Piece(Guard, Red),
      Sq(6, 1) := Piece(Elephant, Red), Sq(7, 1) := Piece(Horse, Red), Sq(8, 1) := Piece(Chariot, Red),
      Sq(1, 3) := Piece(Cannon, Red), Sq(7, 3) := Piece(Cannon, Red),
      Sq(0, 4) := Piece(Soldier, Red), Sq(2, 4) := Piece(Soldier, Red), Sq(4, 4) := Piece(Soldier, Red),
      Sq(6, 4) := Piece(Soldier, Red), Sq(8, 4) := Piece(Soldier, Red),
      Sq(0, 10) := Piece(Chariot, Blue), Sq(1, 10) := Piece(Elephant, Blue), Sq(2, 10) := Piece(Horse, Blue),
      Sq(3, 10) := Piece(Guard, Blue), Sq(4, 9) := Piece(General, Blue), Sq(5, 10) := Piece(Guard, Blue),
      Sq(6, 10) := Piece(Elephant, Blue), Sq(7, 10) := Piece(Horse, Blue), Sq(8, 10) := Piece(Chariot, Blue),
      Sq(1, 8) := Piece(Cannon, Blue), Sq(7, 8) := Piece(Cannon, Blue),
      Sq(0, 7) := Piece(Soldier, Blue), Sq(2, 7) := Piece(Soldier, Blue), Sq(4, 7) := Piece(Soldier, Blue),
      Sq(6, 7) := Piece(Soldier, Blue), Sq(8, 7) := Piece(Soldier, Blue)
    ]
  }

  /** The squares the starting layout occupies: the back rank without its
   *  middle square, the General's square in front of it, the two Cannon
   *  squares and every other square of the Soldiers' rank, on each side. */
  predicate StartSquare(s: Square) {
    0 <= s.file <= 8 &&
    (((s.rank == 1 || s.rank == 10) && s.file != 4) ||
     ((s.rank == 2 || s.rank == 9) && s.file == 4) ||
     ((s.rank == 3 || s.rank == 8) && (s.file == 1 || s.file == 7)) ||
     ((s.rank == 4 || s.rank == 7) && s.file % 2 == 0))
  }

  lemma StartOccupancy(s: Square)
    ensures s in StartPieces() <==> StartSquare(s)
    ensures s in StartPieces() ==> StartPieces()[s].owner == if s.rank <= 5 then Red else Blue
  {
  }
}
