/** What Check_Block_Pos decides from the tile kinds under the block's
    footprint (Sample_GL3_2D.cpp:564-631). Tile kinds are the source's integers:
    0 hole, 1 solid, 2 fragile, 3 switch of bridge 0, 4 switch of bridge 1. */
module Position {
  import opened Rolling

  /** The outcome of one position check: the new block, whether the standing
      cell (a fragile tile) is cleared to 0, and which bridge is nudged. */
  datatype Verdict = Verdict(block: Block, clear: bool, nudge0: bool, nudge1: bool)

  /** Status after the standing rules, applied in the source's order (571-579):
      a hole makes the block fall, a fragile tile breaks, and the destination
      overrides both. */
  function StandingStatus(s: Status, t: int, atDest: bool): Status {
    var s1 := if t == 0 then Falling else s;
    var s2 := if t == 2 then Breaking else s1;
    if atDest then Reached else s2
  }

  /** The lying rules (591-604 and 616-629): both cells holes, the block falls;
      one hole, the key turns toward the hole, the angle grows by 25 and the
      block falls; no hole, nothing changes. */
  function Lie(b: Block, tA: int, tB: int, towardA: Key, towardB: Key): Block {
    if tA == 0 && tB == 0 then b.(status := Falling)
    else if tA == 0 then b.(key := towardA, angle := b.angle + 25, status := Falling)
    else if tB == 0 then b.(key := towardB, angle := b.angle + 25, status := Falling)
    else b
  }

  /** Check_Block_Pos on a block whose footprint cells hold tiles tA and tB
      (tB is ignored for a standing block). */
  function Check(b: Block, tA: int, tB: int): Verdict {
    if IsStanding(b.ext) then
      Verdict(b.(status := StandingStatus(b.status, tA, StandCell(b) == (b.xDest, b.zDest))),
              tA == 2, false, tA == 4)
    else if IsLyingX(b.ext) then
      Verdict(Lie(b, tA, tB, L, R), false, tA != 0 && tB != 0 && tA == 3, false)
    else if IsLyingZ(b.ext) then
      Verdict(Lie(b, tA, tB, U, D), false, false, false)
    else
      Verdict(b, false, false, false)
  }

  /** The standing rules: a hole gives status 1, a fragile tile gives status 3
      and is cleared, the destination gives status 5 whatever the tile, a tile
      of kind 4 nudges bridge 1; nothing else changes. */
  lemma StandingCheck(b: Block, tA: int, tB: int)
    requires Shaped(b.ext) && IsStanding(b.ext)
    ensures var v := Check(b, tA, tB);
      && v.block == b.(status := v.block.status)
      && (StandCell(b) == (b.xDest, b.zDest) ==> v.block.status == Reached)
      && (StandCell(b) != (b.xDest, b.zDest) && tA == 0 ==> v.block.status == Falling)
      && (StandCell(b) != (b.xDest, b.zDest) && tA == 2 ==> v.block.status == Breaking)
      && (StandCell(b) != (b.xDest, b.zDest) && tA != 0 && tA != 2 ==> v.block.status == b.status)
      && (v.clear <==> tA == 2)
      && !v.nudge0 && (v.nudge1 <==> tA == 4)
  {
    ShapedCases(b.ext);
  }

  /** The lying rules never clear a tile and never nudge bridge 1; only an
      x-lying block whose first cell is a switch of kind 3, with no hole under
      it, nudges bridge 0. */
  lemma LyingCheck(b: Block, tA: int, tB: int)
    requires Shaped(b.ext) && !IsStanding(b.ext)
    ensures var v := Check(b, tA, tB);
      && !v.clear && !v.nudge1
      && (v.nudge0 <==> IsLyingX(b.ext) && tA == 3 && tB != 0)
      && (tA == 0 && tB == 0 ==> v.block == b.(status := Falling))
      && (tA == 0 && tB != 0 ==> v.block == b.(key := if IsLyingX(b.ext) then L else U,
                                                angle := b.angle + 25, status := Falling))
      && (tA != 0 && tB == 0 ==> v.block == b.(key := if IsLyingX(b.ext) then R else D,
                                                angle := b.angle + 25, status := Falling))
      && (tA != 0 && tB != 0 ==> v.block == b)
  {
    ShapedCases(b.ext);
  }

  /** Only a standing block on a fragile tile starts to break. */
  lemma BreaksOnlyOnFragile(b: Block, tA: int, tB: int)
    requires Shaped(b.ext)
    ensures Check(b, tA, tB).block.status == Breaking && b.status != Breaking ==> IsStanding(b.ext) && tA == 2
  {
    ShapedCases(b.ext);
  }

  /** The footprint bears the block: no hole under it and, standing, neither a
      fragile tile nor the destination. */
  predicate Bears(b: Block, tA: int, tB: int) {
    if IsStanding(b.ext) then tA != 0 && tA != 2 && StandCell(b) != (b.xDest, b.zDest)
    else tA != 0 && tB != 0
  }

  /** A resting block stays at rest after the check exactly when its footprint
      bears it; otherwise it starts one of the descents (fall, break, target). */
  lemma {:induction false} CheckKeepsRestingIffBorne(b: Block, tA: int, tB: int)
    requires Shaped(b.ext) && b.status == Resting
    ensures Check(b, tA, tB).block.status == Resting <==> Bears(b, tA, tB)
    ensures !Bears(b, tA, tB) ==> Check(b, tA, tB).block.status in {Falling, Breaking, Reached}
  {
    ShapedCases(b.ext);
    if IsStanding(b.ext) {
      StandingCheck(b, tA, tB);
    } else {
      LyingCheck(b, tA, tB);
    }
  }

  /** The check never moves the block, never changes its extents or
      destination, and never produces status 4. */
  lemma CheckKeepsPose(b: Block, tA: int, tB: int)
    ensures var r := Check(b, tA, tB).block;
      r.x == b.x && r.y == b.y && r.z == b.z && r.ext == b.ext
      && r.xDest == b.xDest && r.zDest == b.zDest
      && (b.status != Tipping ==> r.status != Tipping)
      && (b.status.Code() != 4 ==> r.status.Code() != 4)
  {
  }

  /** A fragile tile is consumed once: the block that breaks it leaves a hole,
      and a standing block that later checks the same cell falls rather than
      breaks. */
  lemma FragileConsumedOnce(b: Block, b2: Block, tB: int)
    requires Shaped(b.ext) && IsStanding(b.ext) && StandCell(b) != (b.xDest, b.zDest)
    requires Shaped(b2.ext) && IsStanding(b2.ext) && StandCell(b2) == StandCell(b)
    requires StandCell(b2) != (b2.xDest, b2.zDest)
    ensures Check(b, 2, tB).clear && Check(b, 2, tB).block.status == Breaking
    ensures Check(b2, 0, tB).block.status == Falling && !Check(b2, 0, tB).clear
  {
  }
}
