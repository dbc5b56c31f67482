/**
 * Per-role move legality: whether a piece of a given role and owner standing
 * on `from` may move to `to` on a given board. Every role first rejects a
 * destination off the board (for the General and the Guard: outside the
 * owner's palace) and a destination holding a piece of the same owner, then
 * checks the role's geometry.
 *
 * Each role function is written the way the game computes it (candidate
 * lists for the Horse and the Elephant, lists of squares on the path for the
 * Chariot and the Cannon) and its postcondition states the same rule as
 * board geometry, independently of those lists.
 */
module Movement {
  import opened Board

  function Abs(x: int): nat {
    if x < 0 then -x else x
  }

  function Sign(x: int): int {
    if x > 0 then 1 else if x < 0 then -1 else 0
  }

  function Shift(s: Square, df: int, dr: int): Square {
    Sq(s.file + df, s.rank + dr)
  }

  /** Forward rank direction of a Soldier: Blue moves toward rank 1, Red toward rank 10. */
  function Forward(side: Side): int {
    if side == Blue then -1 else 1
  }

  /* ---------------- General and Guard ---------------- */

  /** One step along a line of the palace: orthogonal, or diagonal to or from the centre. */
  predicate PalaceLine(side: Side, from: Square, to: Square) {
    var df, dr := Abs(to.file - from.file), Abs(to.rank - from.rank);
    df + dr == 1 ||
    (df == 1 && dr == 1 && (from == PalaceCentre(side) || to == PalaceCentre(side)))
  }

  /** The move rule shared by the General and the Guard. When the piece stands
   *  on `from` inside its own palace, it may step to a neighbouring palace
   *  square along a palace line that does not hold a piece of its own side. */
  function PalaceStep(g: Grid, side: Side, from: Square, to: Square): (r: bool)
    ensures r ==> InPalace(side, to) && !OwnPieceAt(g, side, to)
    ensures r ==> Abs(to.rank - from.rank) <= 1 && Abs(to.file - from.file) <= 1
    ensures r ==> !(from in NoDiagonal && to in NoDiagonal)
    ensures InPalace(side, from) && OwnPieceAt(g, side, from) ==>
              (r <==> InPalace(side, to) && !OwnPieceAt(g, side, to) && PalaceLine(side, from, to))
  {
    PalaceListIsPalace(side, to);
    PalaceGeometry(side, from, to);
    if to !in PalaceOf(side) then false
    else if OwnPieceAt(g, side, to) then false
    else if Abs(to.rank - from.rank) > 1 then false
    else if Abs(to.file - from.file) > 1 then false
    else if from in NoDiagonal && to in NoDiagonal then false
    else true
  }

  /** Inside one palace, the game's step test (at most one file and one rank
   *  away, not between two squares of the no-diagonal list) picks out exactly
   *  the steps along the palace lines. */
  lemma PalaceGeometry(side: Side, from: Square, to: Square)
    ensures InPalace(side, from) && InPalace(side, to) && from != to ==>
              ((Abs(to.rank - from.rank) <= 1 && Abs(to.file - from.file) <= 1 &&
                !(from in NoDiagonal && to in NoDiagonal)) <==> PalaceLine(side, from, to))
  {
    if !(InPalace(side, from) && InPalace(side, to) && from != to) { return; }
    NoDiagonalMembers(side, from);
    NoDiagonalMembers(side, to);
  }

  /** Within a palace, the no-diagonal list holds exactly the four squares
   *  orthogonally next to the centre. */
  lemma NoDiagonalMembers(side: Side, s: Square)
    requires InPalace(side, s)
    ensures s in NoDiagonal <==>
              Abs(s.file - PalaceCentre(side).file) + Abs(s.rank - PalaceCentre(side).rank) == 1
  {
    var low := if side == Red then 1 else 8;
    assert s.rank == low || s.rank == low + 1 || s.rank == low + 2;
    assert s.file == 3 || s.file == 4 || s.file == 5;
  }

  /* ---------------- Horse ---------------- */

  /** The unit step at right angles to an orthogonal step. */
  function Perp(d: (int, int)): (int, int) {
    if d.0 == 0 then (1, 0) else (0, 1)
  }

  /** The two Horse landing squares reached through first step `d`; none when that step is occupied. */
  function HorseLeg(g: Grid, from: Square, d: (int, int)): seq<Square> {
    if Occupied(g, Shift(from, d.0, d.1)) then []
    else
      var p := Perp(d);
      [Shift(from, 2 * d.0 + p.0, 2 * d.1 + p.1), Shift(from, 2 * d.0 - p.0, 2 * d.1 - p.1)]
  }

  /** The Horse's candidate list, its four first steps taken in the order the
   *  game tries them: up the file, down the file, right, left. */
  function HorseTargets(g: Grid, from: Square): seq<Square> {
    HorseLeg(g, from, (0, 1)) + HorseLeg(g, from, (0, -1)) +
    HorseLeg(g, from, (1, 0)) + HorseLeg(g, from, (-1, 0))
  }

  /** One orthogonal step then one diagonal step outward, the orthogonal square empty. */
  predicate HorseLeap(g: Grid, from: Square, to: Square) {
    HorseFileLeap(g, from, to) || HorseRankLeap(g, from, to)
  }

  /** Two ranks and one file away, the square one rank toward the target empty. */
  predicate HorseFileLeap(g: Grid, from: Square, to: Square) {
    var df, dr := to.file - from.file, to.rank - from.rank;
    Abs(dr) == 2 && Abs(df) == 1 && !Occupied(g, Sq(from.file, from.rank + Sign(dr)))
  }

  /** Two files and one rank away, the square one file toward the target empty. */
  predicate HorseRankLeap(g: Grid, from: Square, to: Square) {
    var df, dr := to.file - from.file, to.rank - from.rank;
    Abs(df) == 2 && Abs(dr) == 1 && !Occupied(g, Sq(from.file + Sign(df), from.rank))
  }

  function HorseMove(g: Grid, side: Side, from: Square, to: Square): (r: bool)
    ensures r <==> OnBoard(to) && !OwnPieceAt(g, side, to) && HorseLeap(g, from, to)
  {
    if !OnBoard(to) then false
    else if OwnPieceAt(g, side, to) then false
    else HorseTargetsAreLeaps(g, from, to); to in HorseTargets(g, from)
  }

  /** A leg of the Horse's candidate list whose first step is along the file,
   *  `b` ranks forward or back, holds the Horse leaps in that direction that
   *  cover two ranks. */
  lemma HorseLegVertical(g: Grid, from: Square, b: int, to: Square)
    requires b == 1 || b == -1
    ensures to in HorseLeg(g, from, (0, b)) <==> Sign(to.rank - from.rank) == b && HorseFileLeap(g, from, to)
  {
    assert Perp((0, b)) == (1, 0);
  }

  /** A leg of the Horse's candidate list whose first step is along the rank,
   *  `a` files right or left, holds the Horse leaps in that direction that
   *  cover two files. */
  lemma HorseLegHorizontal(g: Grid, from: Square, a: int, to: Square)
    requires a == 1 || a == -1
    ensures to in HorseLeg(g, from, (a, 0)) <==> Sign(to.file - from.file) == a && HorseRankLeap(g, from, to)
  {
    assert Perp((a, 0)) == (0, 1);
  }

  /** The two legs that start along the file hold exactly the Horse leaps
   *  that cover two ranks. */
  lemma HorseVerticalLegs(g: Grid, from: Square, to: Square)
    ensures to in HorseLeg(g, from, (0, 1)) + HorseLeg(g, from, (0, -1)) <==> HorseFileLeap(g, from, to)
  {
    HorseLegVertical(g, from, 1, to);
    HorseLegVertical(g, from, -1, to);
  }

  /** The two legs that start along the rank hold exactly the Horse leaps
   *  that cover two files. */
  lemma HorseHorizontalLegs(g: Grid, from: Square, to: Square)
    ensures to in HorseLeg(g, from, (1, 0)) + HorseLeg(g, from, (-1, 0)) <==> HorseRankLeap(g, from, to)
  {
    HorseLegHorizontal(g, from, 1, to);
    HorseLegHorizontal(g, from, -1, to);
  }

  /** The Horse's candidate list splits into its file legs and its rank legs. */
  lemma HorseTargetsSplit(g: Grid, from: Square, to: Square)
    ensures to in HorseTargets(g, from) <==>
              to in HorseLeg(g, from, (0, 1)) + HorseLeg(g, from, (0, -1)) ||
              to in HorseLeg(g, from, (1, 0)) + HorseLeg(g, from, (-1, 0))
  {
  }

  /** The game's candidate list for a Horse holds exactly the Horse leaps. */
  lemma HorseTargetsAreLeaps(g: Grid, from: Square, to: Square)
    ensures to in HorseTargets(g, from) <==> HorseLeap(g, from, to)
  {
    HorseTargetsSplit(g, from, to);
    HorseVerticalLegs(g, from, to);
    HorseHorizontalLegs(g, from, to);
  }

  /* ---------------- Elephant ---------------- */

  /** The two Elephant landing squares reached through first step `d`, each
   *  kept only when its intermediate diagonal square is empty; none when the
   *  first step is occupied. */
  function ElephantLeg(g: Grid, from: Square, d: (int, int)): seq<Square> {
    if Occupied(g, Shift(from, d.0, d.1)) then []
    else
      var p := Perp(d);
      ElephantWing(g, from, d, p) + ElephantWing(g, from, d, (-p.0, -p.1))
  }

  /** The landing square after first step `d` that bends toward side `p`,
   *  kept only when the diagonal square it passes is empty. */
  function ElephantWing(g: Grid, from: Square, d: (int, int), p: (int, int)): seq<Square> {
    if Occupied(g, Shift(from, 2 * d.0 + p.0, 2 * d.1 + p.1)) then []
    else [Shift(from, 3 * d.0 + 2 * p.0, 3 * d.1 + 2 * p.1)]
  }

  /** The Elephant's candidate list, with the Horse's order of first steps. */
  function ElephantTargets(g: Grid, from: Square): seq<Square> {
    ElephantLeg(g, from, (0, 1)) + ElephantLeg(g, from, (0, -1)) +
    ElephantLeg(g, from, (1, 0)) + ElephantLeg(g, from, (-1, 0))
  }

  /** One orthogonal step then two diagonal steps outward, both traversed squares empty. */
  predicate ElephantLeap(g: Grid, from: Square, to: Square) {
    ElephantFileLeap(g, from, to) || ElephantRankLeap(g, from, to)
  }

  /** Three ranks and two files away, the orthogonal first square and the
   *  diagonal square after it empty. */
  predicate ElephantFileLeap(g: Grid, from: Square, to: Square) {
    var df, dr := to.file - from.file, to.rank - from.rank;
    Abs(dr) == 3 && Abs(df) == 2 &&
    !Occupied(g, Sq(from.file, from.rank + Sign(dr))) &&
    !Occupied(g, Sq(from.file + Sign(df), from.rank + 2 * Sign(dr)))
  }

  /** Three files and two ranks away, the orthogonal first square and the
   *  diagonal square after it empty. */
  predicate ElephantRankLeap(g: Grid, from: Square, to: Square) {
    var df, dr := to.file - from.file, to.rank - from.rank;
    Abs(df) == 3 && Abs(dr) == 2 &&
    !Occupied(g, Sq(from.file + Sign(df), from.rank)) &&
    !Occupied(g, Sq(from.file + 2 * Sign(df), from.rank + Sign(dr)))
  }

  function ElephantMove(g: Grid, side: Side, from: Square, to: Square): (r: bool)
    ensures r <==> OnBoard(to) && !OwnPieceAt(g, side, to) && ElephantLeap(g, from, to)
  {
    if !OnBoard(to) then false
    else if OwnPieceAt(g, side, to) then false
    else ElephantTargetsAreLeaps(g, from, to); to in ElephantTargets(g, from)
  }

  /** A leg of the Elephant's candidate list whose first step is along the
   *  file, `b` ranks forward or back, holds the Elephant leaps in that
   *  direction that cover three ranks. */
  lemma ElephantLegVertical(g: Grid, from: Square, b: int, to: Square)
    requires b == 1 || b == -1
    ensures to in ElephantLeg(g, from, (0, b)) <==>
              Sign(to.rank - from.rank) == b && ElephantFileLeap(g, from, to)
  {
    assert Perp((0, b)) == (1, 0);
    ElephantWingVertical(g, from, b, 1, to);
    ElephantWingVertical(g, from, b, -1, to);
    ElephantFileLeapShape(g, from, b, to);
  }

  /** An Elephant leap three ranks toward `b` lands two files to one side or
   *  the other, past the empty first square and the empty diagonal square. */
  lemma ElephantFileLeapShape(g: Grid, from: Square, b: int, to: Square)
    requires b == 1 || b == -1
    ensures Sign(to.rank - from.rank) == b && ElephantFileLeap(g, from, to) <==>
              !Occupied(g, Sq(from.file, from.rank + b)) &&
              ((to == Sq(from.file + 2, from.rank + 3 * b) && !Occupied(g, Sq(from.file + 1, from.rank + 2 * b))) ||
               (to == Sq(from.file - 2, from.rank + 3 * b) && !Occupied(g, Sq(from.file - 1, from.rank + 2 * b))))
  {
  }

  /** One wing of a file leg: the single square two files toward `c` and
   *  three ranks toward `b`, when the diagonal square it passes is empty. */
  lemma ElephantWingVertical(g: Grid, from: Square, b: int, c: int, to: Square)
    requires b == 1 || b == -1
    requires c == 1 || c == -1
    ensures to in ElephantWing(g, from, (0, b), (c, 0)) <==>
              to == Sq(from.file + 2 * c, from.rank + 3 * b) && !Occupied(g, Sq(from.file + c, from.rank + 2 * b))
  {
  }

  /** A leg of the Elephant's candidate list whose first step is along the
   *  rank, `a` files right or left, holds the Elephant leaps in that
   *  direction that cover three files. */
  lemma ElephantLegHorizontal(g: Grid, from: Square, a: int, to: Square)
    requires a == 1 || a == -1
    ensures to in ElephantLeg(g, from, (a, 0)) <==>
              Sign(to.file - from.file) == a && ElephantRankLeap(g, from, to)
  {
    assert Perp((a, 0)) == (0, 1);
    ElephantWingHorizontal(g, from, a, 1, to);
    ElephantWingHorizontal(g, from, a, -1, to);
    ElephantRankLeapShape(g, from, a, to);
  }

  /** An Elephant leap three files toward `a` lands two ranks to one side or
   *  the other, past the empty first square and the empty diagonal square. */
  lemma ElephantRankLeapShape(g: Grid, from: Square, a: int, to: Square)
    requires a == 1 || a == -1
    ensures Sign(to.file - from.file) == a && ElephantRankLeap(g, from, to) <==>
              !Occupied(g, Sq(from.file + a, from.rank)) &&
              ((to == Sq(from.file + 3 * a, from.rank + 2) && !Occupied(g, Sq(from.file + 2 * a, from.rank + 1))) ||
               (to == Sq(from.file + 3 * a, from.rank - 2) && !Occupied(g, Sq(from.file + 2 * a, from.rank - 1))))
  {
  }

  /** One wing of a rank leg: the single square three files toward `a` and
   *  two ranks toward `c`, when the diagonal square it passes is empty. */
  lemma ElephantWingHorizontal(g: Grid, from: Square, a: int, c: int, to: Square)
    requires a == 1 || a == -1
    requires c == 1 || c == -1
    ensures to in ElephantWing(g, from, (a, 0), (0, c)) <==>
              to == Sq(from.file + 3 * a, from.rank + 2 * c) && !Occupied(g, Sq(from.file + 2 * a, from.rank + c))
  {
  }

  /** The two legs that start along the file hold exactly the Elephant leaps
   *  that cover three ranks. */
  lemma ElephantVerticalLegs(g: Grid, from: Square, to: Square)
    ensures to in ElephantLeg(g, from, (0, 1)) + ElephantLeg(g, from, (0, -1)) <==> ElephantFileLeap(g, from, to)
  {
    ElephantLegVertical(g, from, 1, to);
    ElephantLegVertical(g, from, -1, to);
  }

  /** The two legs that start along the rank hold exactly the Elephant leaps
   *  that cover three files. */
  lemma ElephantHorizontalLegs(g: Grid, from: Square, to: Square)
    ensures to in ElephantLeg(g, from, (1, 0)) + ElephantLeg(g, from, (-1, 0)) <==> ElephantRankLeap(g, from, to)
  {
    ElephantLegHorizontal(g, from, 1, to);
    ElephantLegHorizontal(g, from, -1, to);
  }

  /** The Elephant's candidate list splits into its file legs and its rank legs. */
  lemma ElephantTargetsSplit(g: Grid, from: Square, to: Square)
    ensures to in ElephantTargets(g, from) <==>
              to in ElephantLeg(g, from, (0, 1)) + ElephantLeg(g, from, (0, -1)) ||
              to in ElephantLeg(g, from, (1, 0)) + ElephantLeg(g, from, (-1, 0))
  {
  }

  /** The game's candidate list for an Elephant holds exactly the Elephant leaps. */
  lemma ElephantTargetsAreLeaps(g: Grid, from: Square, to: Square)
    ensures to in ElephantTargets(g, from) <==> ElephantLeap(g, from, to)
  {
    ElephantTargetsSplit(g, from, to);
    ElephantVerticalLegs(g, from, to);
    ElephantHorizontalLegs(g, from, to);
  }

  /* ---------------- Chariot and Cannon ---------------- */

  function Min(a: int, b: int): int { if a < b then a else b }
  function Max(a: int, b: int): int { if a < b then b else a }

  /** `s` lies strictly between `from` and `to` on a common file or rank. */
  ghost predicate StrictlyBetween(from: Square, s: Square, to: Square) {
    (s.file == from.file == to.file && Min(from.rank, to.rank) < s.rank < Max(from.rank, to.rank)) ||
    (s.rank == from.rank == to.rank && Min(from.file, to.file) < s.file < Max(from.file, to.file))
  }

  /** The squares strictly between `from` and `to`, walking from `from`, when the
   *  two share a file (checked first) or a rank; empty otherwise. */
  function Path(from: Square, to: Square): (p: seq<Square>)
    ensures forall s :: s in p <==> StrictlyBetween(from, s, to)
    ensures forall i, j :: 0 <= i < j < |p| ==> p[i] != p[j]
  {
    if from.file == to.file then
      var n, dir := Abs(to.rank - from.rank), Sign(to.rank - from.rank);
      var p := seq(if n > 0 then n - 1 else 0, i requires i >= 0 => Sq(from.file, from.rank + dir * (i + 1)));
      assert forall s :: StrictlyBetween(from, s, to) ==> p[dir * (s.rank - from.rank) - 1] == s;
      p
    else if from.rank == to.rank then
      var n, dir := Abs(to.file - from.file), Sign(to.file - from.file);
      var p := seq(if n > 0 then n - 1 else 0, i requires i >= 0 => Sq(from.file + dir * (i + 1), from.rank));
      assert forall s :: StrictlyBetween(from, s, to) ==> p[dir * (s.file - from.file) - 1] == s;
      p
    else
      []
  }

  /** The occupied squares of a path, in path order. */
  function OccupiedOn(g: Grid, p: seq<Square>): (q: seq<Square>)
    ensures forall s :: s in q <==> s in p && Occupied(g, s)
    ensures forall i :: 0 <= i < |q| ==> Occupied(g, q[i])
    ensures q == [] <==> forall s :: s in p ==> !Occupied(g, s)
  {
    if p == [] then []
    else (if Occupied(g, p[0]) then [p[0]] else []) + OccupiedOn(g, p[1..])
  }

  /** On a path without repeated squares, exactly one occupied square is
   *  what makes the list of occupied squares a singleton. */
  lemma {:induction false} SingleOccupied(g: Grid, p: seq<Square>, s: Square)
    requires forall i, j :: 0 <= i < j < |p| ==> p[i] != p[j]
    ensures OccupiedOn(g, p) == [s] <==>
              s in p && Occupied(g, s) && forall t :: t in p && Occupied(g, t) ==> t == s
  {
    if p != [] {
      var rest := p[1..];
      assert forall i, j :: 0 <= i < j < |rest| ==> rest[i] != rest[j] by {
        forall i, j | 0 <= i < j < |rest| ensures rest[i] != rest[j] {
          assert rest[i] == p[i + 1] && rest[j] == p[j + 1];
        }
      }
      SingleOccupied(g, rest, s);
      assert p[0] !in rest by {
        forall k | 0 <= k < |rest| ensures rest[k] != p[0] { assert rest[k] == p[k + 1]; }
      }
      assert p == [p[0]] + rest;
      if Occupied(g, p[0]) && OccupiedOn(g, rest) != [] {
        var t := OccupiedOn(g, rest)[0];
        assert t in rest && Occupied(g, t) && t != p[0];
        assert |OccupiedOn(g, p)| >= 2;
      }
    }
  }

  /** The first marked diagonal, from index `i` on, that holds both squares. */
  function FirstDiagonal(from: Square, to: Square, i: nat): (d: Option<seq<Square>>)
    requires i <= 4
    decreases 4 - i
    ensures d.Some? ==> d.value in Diagonals && from in d.value && to in d.value
    ensures d.None? ==> forall k :: i <= k < 4 ==> !(from in Diagonals[k] && to in Diagonals[k])
  {
    if i == 4 then None
    else if from in Diagonals[i] && to in Diagonals[i] then Some(Diagonals[i])
    else FirstDiagonal(from, to, i + 1)
  }

  predicate CornerToCorner(d: seq<Square>, from: Square, to: Square)
    requires |d| == 3
  {
    (from == d[0] && to == d[2]) || (from == d[2] && to == d[0])
  }

  /** Both squares lie on one marked palace diagonal. */
  ghost predicate SameDiagonal(from: Square, to: Square) {
    exists d :: d in Diagonals && from in d && to in d
  }

  function Midpoint(from: Square, to: Square): Square {
    Sq((from.file + to.file) / 2, (from.rank + to.rank) / 2)
  }

  /** On a common marked diagonal, the corner-to-corner moves are those two
   *  files and two ranks apart, and the centre is their midpoint. */
  lemma DiagonalGeometry(from: Square, to: Square)
    ensures FirstDiagonal(from, to, 0).Some? <==> SameDiagonal(from, to)
    ensures FirstDiagonal(from, to, 0).Some? ==>
              var d := FirstDiagonal(from, to, 0).value;
              |d| == 3 &&
              (CornerToCorner(d, from, to) <==> Abs(to.file - from.file) == 2 && Abs(to.rank - from.rank) == 2) &&
              (CornerToCorner(d, from, to) ==> d[1] == Midpoint(from, to))
  {
    if SameDiagonal(from, to) {
      var d :| d in Diagonals && from in d && to in d;
      var k :| 0 <= k < 4 && Diagonals[k] == d;
    }
    if FirstDiagonal(from, to, 0).Some? {
      var k :| 0 <= k < 4 && Diagonals[k] == FirstDiagonal(from, to, 0).value;
      DiagonalCorners(k, from, to);
    }
  }

  /** A square on none of the four marked diagonals shares no diagonal with
   *  any square, so the game finds none for it. */
  lemma OffDiagonal(from: Square, to: Square)
    requires from !in Diagonals[0] && from !in Diagonals[1] && from !in Diagonals[2] && from !in Diagonals[3]
    ensures !SameDiagonal(from, to) && FirstDiagonal(from, to, 0).None?
  {
    forall d | d in Diagonals ensures from !in d {
      var k :| 0 <= k < 4 && Diagonals[k] == d;
    }
  }

  /** Two squares of marked diagonal `k` are its two corners exactly when they
   *  are two files and two ranks apart, with the centre between them. */
  lemma DiagonalCorners(k: nat, from: Square, to: Square)
    requires k < 4 && from in Diagonals[k] && to in Diagonals[k]
    ensures CornerToCorner(Diagonals[k], from, to) <==>
              Abs(to.file - from.file) == 2 && Abs(to.rank - from.rank) == 2
    ensures CornerToCorner(Diagonals[k], from, to) ==> Diagonals[k][1] == Midpoint(from, to)
  {
    var d := Diagonals[k];
    assert from == d[0] || from == d[1] || from == d[2];
    assert to == d[0] || to == d[1] || to == d[2];
  }

  /** The Chariot's move test, computed as the game does: first the marked
   *  palace diagonals, then the one-step shortcuts, then the squares on the way. */
  function ChariotMove(g: Grid, side: Side, from: Square, to: Square): (r: bool)
    ensures r ==> OnBoard(to) && !OwnPieceAt(g, side, to)
  {
    if !OnBoard(to) then false
    else if OwnPieceAt(g, side, to) then false
    else match FirstDiagonal(from, to, 0)
      case Some(d) => !(CornerToCorner(d, from, to) && Occupied(g, d[1]))
      case None =>
        if from.file == to.file && Abs(to.rank - from.rank) == 1 then true
        else if from.rank == to.rank && Abs(to.file - from.file) == 1 then true
        else Path(from, to) != [] && OccupiedOn(g, Path(from, to)) == []
  }

  /** The Chariot slides along a file or rank over empty squares; when both
   *  squares are on one palace diagonal it slides along it instead, a
   *  corner-to-corner move needing an empty centre. */
  lemma ChariotMoveSpec(g: Grid, side: Side, from: Square, to: Square)
    ensures ChariotMove(g, side, from, to) <==>
              OnBoard(to) && !OwnPieceAt(g, side, to) &&
              if SameDiagonal(from, to) then
                !(Abs(to.file - from.file) == 2 && Abs(to.rank - from.rank) == 2 &&
                  Occupied(g, Midpoint(from, to)))
              else
                from != to && (from.file == to.file || from.rank == to.rank) &&
                forall s :: StrictlyBetween(from, s, to) ==> !Occupied(g, s)
  {
    DiagonalGeometry(from, to);
  }

  /** `s` is the one occupied square strictly between `from` and `to`. */
  ghost predicate OnlyScreen(g: Grid, from: Square, s: Square, to: Square) {
    StrictlyBetween(from, s, to) && Occupied(g, s) &&
    forall t :: StrictlyBetween(from, t, to) && Occupied(g, t) ==> t == s
  }

  /** The Cannon's move test, computed as the game does: the Cannon target
   *  check, then the marked palace diagonals, then the screens on the way. */
  function CannonMove(g: Grid, side: Side, from: Square, to: Square): (r: bool)
    ensures r ==> OnBoard(to) && !OwnPieceAt(g, side, to)
  {
    if !OnBoard(to) then false
    else if OwnPieceAt(g, side, to) then false
    else if Occupied(g, to) && g[to].role == Cannon then false
    else match FirstDiagonal(from, to, 0)
      case Some(d) => CornerToCorner(d, from, to) && Occupied(g, d[1])
      case None =>
        var screens := OccupiedOn(g, Path(from, to));
        Path(from, to) != [] && |screens| == 1 && g[screens[0]].role != Cannon
  }

  /** The Cannon never lands on a Cannon. Along a file or rank it needs exactly
   *  one occupied square on the way, and that screen may not be a Cannon;
   *  along a palace diagonal it may only jump corner to corner over an
   *  occupied centre, whatever that centre holds. */
  lemma CannonMoveSpec(g: Grid, side: Side, from: Square, to: Square)
    ensures CannonMove(g, side, from, to) <==>
              OnBoard(to) && !OwnPieceAt(g, side, to) &&
              !(Occupied(g, to) && g[to].role == Cannon) &&
              if SameDiagonal(from, to) then
                Abs(to.file - from.file) == 2 && Abs(to.rank - from.rank) == 2 &&
                Occupied(g, Midpoint(from, to))
              else
                exists s :: OnlyScreen(g, from, s, to) && g[s].role != Cannon
  {
    DiagonalGeometry(from, to);
    CannonScreen(g, from, to);
  }

  lemma CannonScreen(g: Grid, from: Square, to: Square)
    ensures var screens := OccupiedOn(g, Path(from, to));
            (|screens| == 1 && g[screens[0]].role != Cannon) <==>
              exists s :: OnlyScreen(g, from, s, to) && g[s].role != Cannon
  {
    var screens := OccupiedOn(g, Path(from, to));
    if |screens| == 1 {
      SingleOccupied(g, Path(from, to), screens[0]);
      assert screens == [screens[0]];
    }
    if exists s :: OnlyScreen(g, from, s, to) && g[s].role != Cannon {
      var s :| OnlyScreen(g, from, s, to) && g[s].role != Cannon;
      SingleOccupied(g, Path(from, to), s);
    }
  }

  /** A one-step move along a file or rank onto a board square without an own
   *  piece is always a legal Chariot move. */
  lemma ChariotSingleStep(g: Grid, side: Side, from: Square, to: Square)
    requires OnBoard(to) && !OwnPieceAt(g, side, to)
    requires Abs(to.file - from.file) + Abs(to.rank - from.rank) == 1
    ensures ChariotMove(g, side, from, to)
  {
    ChariotMoveSpec(g, side, from, to);
  }

  /** A Cannon never moves a single step, whatever the direction. */
  lemma CannonNoSingleStep(g: Grid, side: Side, from: Square, to: Square)
    requires Abs(to.file - from.file) <= 1 && Abs(to.rank - from.rank) <= 1
    ensures !CannonMove(g, side, from, to)
  {
    CannonMoveSpec(g, side, from, to);
    forall s | StrictlyBetween(from, s, to) ensures false {
    }
  }

  /* ---------------- Soldier ---------------- */

  /** The palace diagonal steps a Soldier may take inside the enemy palace. */
  function SoldierDiagonals(side: Side): seq<(Square, Square)> {
    if side == Blue then
      [(Sq(3, 3), Sq(4, 2)), (Sq(5, 3), Sq(4, 2)), (Sq(4, 2), Sq(3, 1)), (Sq(4, 2), Sq(5, 1))]
    else
      [(Sq(3, 8), Sq(4, 9)), (Sq(5, 8), Sq(4, 9)), (Sq(4, 9), Sq(3, 10)), (Sq(4, 9), Sq(5, 10))]
  }

  /** A Soldier steps one file sideways or one rank forward, never backward;
   *  it steps diagonally only along a palace line of the enemy palace,
   *  and always forward. */
  function SoldierMove(g: Grid, side: Side, from: Square, to: Square): (r: bool)
    ensures r ==> OnBoard(to) && !OwnPieceAt(g, side, to)
    ensures r ==> Abs(to.file - from.file) <= 1 &&
                  (to.rank == from.rank || to.rank == from.rank + Forward(side))
    ensures r && to.file != from.file && to.rank != from.rank ==>
              InPalace(Opponent(side), from) && InPalace(Opponent(side), to) &&
              PalaceLine(Opponent(side), from, to)
    ensures OnBoard(to) && !OwnPieceAt(g, side, to) ==>
              (from.rank == to.rank && Abs(to.file - from.file) == 1 ==> r) &&
              (from.file == to.file && to.rank == from.rank + Forward(side) ==> r) &&
              ((from, to) in SoldierDiagonals(side) ==> r)
  {
    if !OnBoard(to) then false
    else if OwnPieceAt(g, side, to) then false
    else if from.rank == to.rank && Abs(from.file - to.file) == 1 then true
    else if from.file == to.file && from.rank - to.rank == (if side == Blue then 1 else -1) then true
    else (from in RedPalace + BluePalace) && (from, to) in SoldierDiagonals(side)
  }

  /* ---------------- Dispatch ---------------- */

  /** Whether piece `p` standing on `from` may move to `to`. */
  function ValidMove(g: Grid, p: Piece, from: Square, to: Square): (r: bool)
    ensures r ==> OnBoard(to) && !OwnPieceAt(g, p.owner, to)
  {
    match p.role
    case General => PalaceStep(g, p.owner, from, to)
    case Guard => PalaceStep(g, p.owner, from, to)
    case Horse => HorseMove(g, p.owner, from, to)
    case Elephant => ElephantMove(g, p.owner, from, to)
    case Chariot => ChariotMove(g, p.owner, from, to)
    case Cannon => CannonMove(g, p.owner, from, to)
    case Soldier => SoldierMove(g, p.owner, from, to)
  }
}
