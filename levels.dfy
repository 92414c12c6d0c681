/** The data of the three levels (level_init, Sample_GL3_2D.cpp:935-978): the
    tile list in reveal order, the spawn cell, the destination and the special
    tiles written over the plain board. */
module Levels {

  /** The board is 14 by 14 cells. */
  const Size := 14

  type Coord = c: int | 0 <= c < 14

  /** The `n` that level_init passes to initialize with the tile list. */
  function TileCount(lv: int): (n: int)
    ensures n % 2 == 0 && 0 <= n <= 400
    ensures n > 0 <==> 1 <= lv <= 3
  {
    if lv == 1 then 74 else if lv == 2 then 96 else if lv == 3 then 68 else 0
  }

  /** The tile list of a level: x, z of the first tile, x, z of the second, and
      so on, in the order the tiles are revealed. */
  function Tiles(lv: int): (s: seq<Coord>)
    ensures |s| == TileCount(lv)
  {
    // Ten pairs per chunk.
    if lv == 1 then
      [3,3,3,4,3,5,4,5,5,5,4,6,5,6,6,6,6,5,6,4] +
      [7,5,7,4,7,3,8,3,8,2,9,3,9,2,10,3,10,4,10,5] +
      [9,5,11,5,10,6,10,7,10,8,9,7,9,8,9,9,8,9,7,9] +
      [7,10,6,10,5,10,5,9,5,8,6,8,7,8]
    else if lv == 2 then
      [4,10,5,10,5,11,4,11,3,11,3,10,3,9,4,9,2,10,5,9] +
      [6,10,7,10,8,10,9,10,8,9,9,9,8,8,9,8,10,8,10,7] +
      [10,6,10,5,10,4,11,4,9,4,9,3,10,3,11,3,9,2,10,2] +
      [11,2,8,3,8,4,7,3,7,4,6,4,5,4,4,4,4,5,4,6] +
      [3,5,3,6,2,5,2,6,2,4,2,3,3,3,4,3]
    else if lv == 3 then
      [4,4,4,5,3,5,3,4,3,3,4,3,2,4,5,3,5,4,5,5] +
      [8,4,9,4,8,5,9,5,9,6,8,6,7,6,7,7,8,7,9,7] +
      [9,8,8,8,7,8,7,9,8,9,9,9,4,8,4,9,3,9,2,9] +
      [2,8,2,7,3,7,4,7]
    else []
  }

  /** The p-th cell of a flat list of coordinates. */
  function PairAt(s: seq<int>, p: int): (int, int)
    requires 0 <= p < |s| / 2
  {
    (s[2 * p], s[2 * p + 1])
  }

  /** The cell c is one of the pairs of s. */
  ghost predicate Listed(s: seq<int>, c: (int, int)) {
    exists p :: 0 <= p < |s| / 2 && PairAt(s, p) == c
  }

  /** Adding the next pair to a prefix of s adds exactly that cell. */
  lemma {:induction false} ListedSnoc(s: seq<int>, k: int, c: (int, int))
    requires 0 <= k && k + 2 <= |s| && k % 2 == 0
    ensures Listed(s[..k + 2], c) <==> Listed(s[..k], c) || PairAt(s, k / 2) == c
  {
    if Listed(s[..k + 2], c) {
      var p :| 0 <= p < (k + 2) / 2 && PairAt(s[..k + 2], p) == c;
      if p < k / 2 {
        assert PairAt(s[..k], p) == c;
      }
    }
    if Listed(s[..k], c) {
      var p :| 0 <= p < k / 2 && PairAt(s[..k], p) == c;
      assert PairAt(s[..k + 2], p) == c;
    }
    if PairAt(s, k / 2) == c {
      assert PairAt(s[..k + 2], k / 2) == c;
    }
  }

  /** Entry k of the reveal order that initialize leaves for a level. */
  function OrderAt(lv: int, k: int): Coord {
    if 0 <= k < TileCount(lv) then Tiles(lv)[k] else 0
  }

  /** The cell the block is spawned on. */
  function Spawn(lv: int): (Coord, Coord) {
    if lv == 1 then (3, 5) else if lv == 2 then (4, 10) else if lv == 3 then (4, 4) else (0, 0)
  }

  /** The destination cell. */
  function Destination(lv: int): (Coord, Coord) {
    if lv == 1 then (6, 9) else if lv == 2 then (3, 4) else if lv == 3 then (3, 8) else (0, 0)
  }

  /** The fragile cells of level 2. */
  const Fragile: set<(int, int)> := {(10, 4), (11, 4), (9, 4), (9, 3), (10, 3), (11, 3), (9, 2), (10, 2)}

  /** The switch of bridge 0 (kind 3) and of bridge 1 (kind 4) in level 3. */
  const Switch0: (Coord, Coord) := (2, 4)
  const Switch1: (Coord, Coord) := (9, 7)

  /** The cells owned by the two bridges of level 3. */
  const BridgeCells: seq<((Coord, Coord), (Coord, Coord))> := [((6, 4), (7, 4)), ((5, 8), (6, 8))]

  /** The tile kind of cell (i, j) once a level is loaded: the listed cells
      are 1, the destination is 1, level 2's fragile cells are 2 and level 3's
      switches are 3 and 4; every other cell is a hole. */
  ghost function InitialCell(lv: int, i: int, j: int): (t: int)
    ensures 0 <= t <= 4
  {
    if (i, j) == Destination(lv) && 1 <= lv <= 3 then 1
    else if lv == 2 && (i, j) in Fragile then 2
    else if lv == 3 && (i, j) == Switch0 then 3
    else if lv == 3 && (i, j) == Switch1 then 4
    else if Listed(Tiles(lv), (i, j)) then 1
    else 0
  }

  /** Where each level's spawn cell sits in its table: pair 2 of level 1,
      pair 0 of levels 2 and 3. */
  lemma SpawnPairs()
    ensures PairAt(Tiles(1), 2) == Spawn(1) && Listed(Tiles(1), Spawn(1))
    ensures PairAt(Tiles(2), 0) == Spawn(2) && Listed(Tiles(2), Spawn(2))
    ensures PairAt(Tiles(3), 0) == Spawn(3) && Listed(Tiles(3), Spawn(3))
  {
    assert PairAt(Tiles(1), 2) == Spawn(1);
    assert PairAt(Tiles(2), 0) == Spawn(2);
    assert PairAt(Tiles(3), 0) == Spawn(3);
  }

  /** The spawn cell is in the level's reveal order. */
  lemma SpawnListed(lv: int)
    requires 1 <= lv <= 3
    ensures Listed(Tiles(lv), Spawn(lv))
  {
    SpawnPairs();
  }

  /** The block spawns on a plain solid tile, and the destination, a
      different cell, is solid. */
  lemma SpawnOnSolid(lv: int)
    requires 1 <= lv <= 3
    ensures InitialCell(lv, Spawn(lv).0, Spawn(lv).1) == 1
    ensures InitialCell(lv, Destination(lv).0, Destination(lv).1) == 1
    ensures Spawn(lv) != Destination(lv)
  {
    SpawnListed(lv);
  }

  /** Every fragile tile of level 2 is in its reveal order. */
  lemma FragileListed()
    ensures forall c :: c in Fragile ==> Listed(Tiles(2), c)
  {
    var s := Tiles(2);
    assert PairAt(s, 22) == (10, 4);
    assert PairAt(s, 23) == (11, 4);
    assert PairAt(s, 24) == (9, 4);
    assert PairAt(s, 25) == (9, 3);
    assert PairAt(s, 26) == (10, 3);
    assert PairAt(s, 27) == (11, 3);
    assert PairAt(s, 28) == (9, 2);
    assert PairAt(s, 29) == (10, 2);
  }

  /** Both switches of level 3 are in its reveal order and hold their kinds. */
  lemma SwitchesListed()
    ensures Listed(Tiles(3), Switch0) && InitialCell(3, Switch0.0, Switch0.1) == 3
    ensures Listed(Tiles(3), Switch1) && InitialCell(3, Switch1.0, Switch1.1) == 4
  {
    assert PairAt(Tiles(3), 6) == Switch0;
    assert PairAt(Tiles(3), 19) == Switch1;
  }

  /** Level 3's bridge cells are neither special tiles nor the destination: the
      bridges alone decide whether they bear the block. */
  lemma BridgeCellsPlain()
    ensures forall k :: 0 <= k < 2 ==>
      BridgeCells[k].0 !in {Switch0, Switch1, Destination(3), Spawn(3)}
      && BridgeCells[k].1 !in {Switch0, Switch1, Destination(3), Spawn(3)}
  {
  }
}
