/** The block: its extents, its three orientation tests and the pose change made
    when a roll completes (Sample_GL3_2D.cpp, struct Block and moveBlock). */
module Rolling {

  /** The pending roll direction, `block.key`; `Unset` is the zero character the
      global holds before the first command. */
  datatype Key = Unset | R | L | U | D

  /** `block.fall_status`; `Code()` gives the integer the source stores. */
  datatype Status = Resting | Falling | Settling | Breaking | Tipping | Reached
  {
    function Code(): (c: int)
      ensures 0 <= c <= 5
    {
      match this
      case Resting => 0
      case Falling => 1
      case Settling => 2
      case Breaking => 3
      case Tipping => 4
      case Reached => 5
    }
  }

  /** length along x, breadth along z, height along y */
  datatype Extents = Extents(length: real, breadth: real, height: real)

  const StandingShape := Extents(0.5, 0.5, 1.0)
  const LyingXShape := Extents(1.0, 0.5, 0.5)
  const LyingZShape := Extents(0.5, 1.0, 0.5)

  // The three orientation tests of Check_Block_Pos, in the source's words.
  predicate IsStanding(e: Extents) { e.height == 2.0 * e.length }
  predicate IsLyingX(e: Extents) { e.length == 2.0 * e.height }
  predicate IsLyingZ(e: Extents) { e.breadth == 2.0 * e.height }

  /** The extents are a permutation of {0.5, 0.5, 1.0}. */
  predicate Shaped(e: Extents) {
    multiset{e.length, e.breadth, e.height} == multiset{0.5, 0.5, 1.0}
  }

  predicate ExactlyOneOrientation(e: Extents) {
    (if IsStanding(e) then 1 else 0) + (if IsLyingX(e) then 1 else 0) + (if IsLyingZ(e) then 1 else 0) == 1
  }

  /** A permutation of {0.5, 0.5, 1.0} is one of the three resting shapes, and
      each of them passes exactly the orientation test that names it. */
  lemma {:induction false} ShapedCases(e: Extents)
    ensures Shaped(e) <==> e == StandingShape || e == LyingXShape || e == LyingZShape
    ensures Shaped(e) ==> ExactlyOneOrientation(e)
    ensures Shaped(e) ==> (IsStanding(e) <==> e == StandingShape)
    ensures Shaped(e) ==> (IsLyingX(e) <==> e == LyingXShape)
    ensures Shaped(e) ==> (IsLyingZ(e) <==> e == LyingZShape)
  {
    var m := multiset{e.length, e.breadth, e.height};
    if Shaped(e) {
      assert e.length in m && e.breadth in m && e.height in m;
      assert m[1.0] == 1;
      if e.length == 1.0 {
        assert m[1.0] == 1 + (if e.breadth == 1.0 then 1 else 0) + (if e.height == 1.0 then 1 else 0);
      } else if e.breadth == 1.0 {
        assert m[1.0] == 1 + (if e.height == 1.0 then 1 else 0);
      } else {
        assert m[1.0] == (if e.height == 1.0 then 1 else 0);
      }
    }
  }

  /** The block's fields that the game logic reads and writes (the rotation
      matrix, pivot and colour are presentation only). */
  datatype Block = Block(x: real, y: real, z: real, ext: Extents, angle: int,
                         key: Key, status: Status, xDest: int, zDest: int)

  /** Roll completion (moveBlock, 668-694): the angle returns to 0, the block
      moves by half the sum of the moved-axis extent and the height, `y` becomes
      half of the extent that is about to become the height, and the two
      extents are swapped. */
  function Roll(b: Block): Block {
    var e := b.ext;
    match b.key
    case R => b.(angle := 0, x := b.x + e.length / 2.0 + e.height / 2.0, y := e.length / 2.0,
                 ext := Extents(e.height, e.breadth, e.length))
    case L => b.(angle := 0, x := b.x - (e.length / 2.0 + e.height / 2.0), y := e.length / 2.0,
                 ext := Extents(e.height, e.breadth, e.length))
    case U => b.(angle := 0, z := b.z - (e.breadth / 2.0 + e.height / 2.0), y := e.breadth / 2.0,
                 ext := Extents(e.length, e.height, e.breadth))
    case D => b.(angle := 0, z := b.z + e.breadth / 2.0 + e.height / 2.0, y := e.breadth / 2.0,
                 ext := Extents(e.length, e.height, e.breadth))
    case Unset => b.(angle := 0)
  }

  /** After a roll the extents are still a permutation of {0.5, 0.5, 1.0},
      exactly one orientation test holds, and the block rests on the floor. */
  lemma {:induction false} RollKeepsShape(b: Block)
    requires Shaped(b.ext) && b.key != Unset
    ensures Shaped(Roll(b).ext)
    ensures ExactlyOneOrientation(Roll(b).ext)
    ensures Roll(b).y == Roll(b).ext.height / 2.0
    ensures Roll(b).angle == 0
    ensures multiset{Roll(b).ext.length, Roll(b).ext.breadth, Roll(b).ext.height}
         == multiset{b.ext.length, b.ext.breadth, b.ext.height}
  {
    ShapedCases(b.ext);
    ShapedCases(Roll(b).ext);
  }

  /** Only the moved axis changes: a left/right roll keeps z and the breadth,
      an up/down roll keeps x and the length. */
  lemma RollMovesOneAxis(b: Block)
    ensures b.key in {R, L} ==> Roll(b).z == b.z && Roll(b).ext.breadth == b.ext.breadth
    ensures b.key in {U, D} ==> Roll(b).x == b.x && Roll(b).ext.length == b.ext.length
    ensures Roll(b).status == b.status && Roll(b).key == b.key
  {
  }

  /** A right roll followed by a left roll (or up then down) puts a block that
      rests on the floor back where it was, with the same extents. */
  lemma RollBack(b: Block)
    requires b.y == b.ext.height / 2.0
    ensures Roll(Roll(b.(key := R)).(key := L)) == b.(key := L, angle := 0)
    ensures Roll(Roll(b.(key := L)).(key := R)) == b.(key := R, angle := 0)
    ensures Roll(Roll(b.(key := U)).(key := D)) == b.(key := D, angle := 0)
    ensures Roll(Roll(b.(key := D)).(key := U)) == b.(key := U, angle := 0)
  {
  }

  /** Two right rolls from standing give a standing block 1.5 units (three grid
      cells) further along +x; the first roll lays it along x. */
  lemma TwoRightRolls(b: Block)
    requires b.ext == StandingShape && b.key == R
    ensures Roll(b).ext == LyingXShape && Roll(b).x == b.x + 0.75 && Roll(b).y == 0.25
    ensures Roll(Roll(b)) == b.(x := b.x + 1.5, y := 0.5, angle := 0)
  {
  }

  /** C++'s conversion of a double to int: truncation toward zero. */
  function Trunc(r: real): (n: int)
    ensures 0.0 <= r ==> n as real <= r < n as real + 1.0
    ensures r < 0.0 ==> n as real - 1.0 < r <= n as real
  {
    if r >= 0.0 then r.Floor else -((-r).Floor)
  }

  /** Cell under a standing block: (int)(2x), (int)(2z) (569-570). */
  function StandCell(b: Block): (int, int) {
    (Trunc(2.0 * b.x), Trunc(2.0 * b.z))
  }

  /** First footprint cell as Check_Block_Pos computes it; the z-lying case
      subtracts length/4, as the source writes it (615). */
  function CellA(b: Block): (int, int) {
    if IsStanding(b.ext) then StandCell(b)
    else if IsLyingX(b.ext) then (Trunc(2.0 * (b.x - b.ext.length / 4.0)), Trunc(2.0 * b.z))
    else if IsLyingZ(b.ext) then (Trunc(2.0 * b.x), Trunc(2.0 * (b.z - b.ext.length / 4.0)))
    else StandCell(b)
  }

  /** Second footprint cell: the neighbour of CellA along the lying axis. */
  function CellB(b: Block): (int, int) {
    var a := CellA(b);
    if IsStanding(b.ext) then a
    else if IsLyingX(b.ext) then (a.0 + 1, a.1)
    else if IsLyingZ(b.ext) then (a.0, a.1 + 1)
    else a
  }

  /** A block whose footprint lies on the half-unit lattice with its first cell
      at (i, j). */
  predicate Aligned(b: Block, i: int, j: int) {
    if b.ext == StandingShape then 2.0 * b.x == i as real && 2.0 * b.z == j as real
    else if b.ext == LyingXShape then 2.0 * b.x == i as real + 0.5 && 2.0 * b.z == j as real
    else if b.ext == LyingZShape then 2.0 * b.x == i as real && 2.0 * b.z == j as real + 0.5
    else false
  }

  /** The cell a roll moves the footprint's first cell to. */
  function Advance(e: Extents, k: Key, i: int, j: int): (int, int) {
    match k
    case R => (i + (if e == LyingXShape then 2 else 1), j)
    case L => (i - (if e == StandingShape then 2 else 1), j)
    case D => (i, j + (if e == LyingZShape then 2 else 1))
    case U => (i, j - (if e == StandingShape then 2 else 1))
    case Unset => (i, j)
  }

  /** A roll keeps the block on the lattice and moves its footprint one step in
      the roll direction; away from the negative edge of the grid the cells the
      position check computes are exactly that footprint. */
  lemma {:induction false} RollAdvancesFootprint(b: Block, i: int, j: int)
    requires Aligned(b, i, j) && b.key != Unset
    ensures Aligned(Roll(b), Advance(b.ext, b.key, i, j).0, Advance(b.ext, b.key, i, j).1)
    ensures var c := Advance(b.ext, b.key, i, j);
            0 <= c.0 && 0 <= c.1 ==> CellA(Roll(b)) == c
  {
    var c := Advance(b.ext, b.key, i, j);
    var r := Roll(b);
    ShapedCases(b.ext);
    RollKeepsShape(b);
    ShapedCases(r.ext);
    if 0 <= c.0 && 0 <= c.1 {
      AlignedCellA(r, c.0, c.1);
    }
  }

  /** The position check reads the right cell of an aligned block. */
  lemma AlignedCellA(b: Block, i: int, j: int)
    requires Aligned(b, i, j) && 0 <= i && 0 <= j
    ensures CellA(b) == (i, j)
  {
    ShapedCases(b.ext);
    if b.ext == StandingShape {
      TruncAt(i, 0.0);
      TruncAt(j, 0.0);
    } else if b.ext == LyingXShape {
      assert 2.0 * (b.x - b.ext.length / 4.0) == i as real;
      TruncAt(i, 0.0);
      TruncAt(j, 0.0);
    } else {
      assert 2.0 * (b.z - b.ext.length / 4.0) == j as real + 0.25;
      TruncAt(i, 0.0);
      TruncAt(j, 0.25);
    }
  }

  lemma TruncAt(k: int, f: real)
    requires 0 <= k && 0.0 <= f < 1.0
    ensures Trunc(k as real + f) == k
  {
  }
}
