/** The block's part of one simulation tick (Sample_GL3_2D.cpp:1058-1097):
    the per-status descent and the advance of a roll in flight. */
module Motion {
  import opened Rolling

  /** One tick applied to the block and to `hang`: first the descent chain
      (1058-1079), then the chain that tests the status left by it (1080-1097).
      A falling block turns by 10 in the first chain and again by 10 in the
      second, because the source's final `else if (angle != 0)` catches it. */
  function TickBlock(b: Block, hang: bool): (Block, bool) {
    var (b1, h1) :=
      if b.status == Falling then
        var a := b.angle + 10;
        (b.(angle := if a > 360 then a - 360 else a, y := b.y - 0.5), hang)
      else if b.status == Settling then
        if b.y > b.ext.height / 2.0 then (b.(y := b.y - 0.05), hang)
        else (b.(status := Resting), false)
      else if b.status == Breaking then (b.(y := b.y - 0.25), hang)
      else (b, hang);
    if b1.status == Tipping then
      var a := b1.angle + 10;
      var b2 := if a >= 90 then b1.(angle := 0, status := Falling) else b1.(angle := a);
      (if b2.angle > 360 then b2.(angle := b2.angle - 360) else b2, h1)
    else if b1.status == Reached then (b1.(y := b1.y - 0.25), h1)
    else if b1.angle != 0 then (b1.(angle := b1.angle + 10), true)
    else (b1, h1)
  }

  /** n ticks in a row. */
  function TickN(b: Block, hang: bool, n: nat): (Block, bool)
    decreases n
  {
    if n == 0 then (b, hang)
    else
      var (b1, h1) := TickBlock(b, hang);
      TickN(b1, h1, n - 1)
  }

  /** A tick never raises the block, never moves it sideways or changes its
      extents, and a resting block keeps its height and its status. A block
      not in status 4 is never put into it, and a tick neither starts nor ends
      a break. */
  lemma TickNeverRises(b: Block, hang: bool)
    ensures var r := TickBlock(b, hang).0;
      && r.y <= b.y
      && r.x == b.x && r.z == b.z && r.ext == b.ext && r.key == b.key
      && (b.status == Resting ==> r.y == b.y && r.status == Resting)
      && (b.status != Tipping ==> r.status != Tipping)
      && (r.status == Breaking <==> b.status == Breaking)
  {
  }

  /** While a roll is in flight on a resting block, each tick advances its
      angle by 10 and sets `hang`; a falling block's angle grows by 20. */
  lemma TickAdvancesAngle(b: Block, hang: bool)
    ensures b.status == Resting && b.angle != 0 ==>
      TickBlock(b, hang) == (b.(angle := b.angle + 10), true)
    ensures b.status == Falling && 0 <= b.angle <= 340 ==>
      TickBlock(b, hang).0.angle == b.angle + 20 && TickBlock(b, hang).1
  {
  }

  /** Descent per tick of the three terminal states. */
  function Rate(s: Status): real {
    if s == Falling then 0.5 else if s == Breaking || s == Reached then 0.25 else 0.0
  }

  /** A falling, breaking or target-reaching block keeps its status and sinks
      by its rate on every tick. */
  lemma {:induction false} DescentIn(b: Block, hang: bool, k: nat)
    requires b.status in {Falling, Breaking, Reached}
    ensures var r := TickN(b, hang, k).0;
      r.status == b.status && r.y == b.y - Rate(b.status) * (k as real)
      && r.x == b.x && r.z == b.z && r.ext == b.ext
    decreases k
  {
    if k > 0 {
      var (b1, h1) := TickBlock(b, hang);
      DescentIn(b1, h1, k - 1);
    }
  }

  /** A block that falls from its resting height 0.5 is still at -3 after 7
      ticks and below the death threshold -3 after 8. */
  lemma FallCrossesThresholdAfterEight(b: Block, hang: bool)
    requires b.status == Falling && b.y == 0.5
    ensures TickN(b, hang, 7).0.y == -3.0
    ensures TickN(b, hang, 8).0.y < -3.0
  {
    DescentIn(b, hang, 7);
    DescentIn(b, hang, 8);
  }

  /** A settling block n steps of 0.05 above its resting height reaches that
      height after n ticks, and the next tick sets it resting and clears `hang`. */
  lemma {:induction false} SettleIn(b: Block, hang: bool, n: nat)
    requires b.status == Settling && b.y == b.ext.height / 2.0 + 0.05 * (n as real)
    ensures var r := TickN(b, hang, n).0;
      r.status == Settling && r.y == b.ext.height / 2.0 && r.ext == b.ext
      && (b.angle == 0 ==> r.angle == 0 && r == b.(y := b.ext.height / 2.0))
    ensures var r := TickN(b, hang, n + 1);
      r.0.status == Resting && r.0.y == b.ext.height / 2.0
    ensures b.angle == 0 ==>
      TickN(b, hang, n + 1) == (b.(y := b.ext.height / 2.0, status := Resting), false)
    decreases n
  {
    if n > 0 {
      var (b1, h1) := TickBlock(b, hang);
      assert b1.y == b1.ext.height / 2.0 + 0.05 * ((n - 1) as real);
      SettleIn(b1, h1, n - 1);
    }
  }

  /** A freshly spawned standing block (y = 1.0) settles onto the board after
      ten ticks of 0.05, at rest on the eleventh. */
  lemma SpawnSettles(b: Block, hang: bool)
    requires b.status == Settling && b.ext == StandingShape && b.y == 1.0
    ensures TickN(b, hang, 10).0.y == 0.5 && TickN(b, hang, 10).0.status == Settling
    ensures TickN(b, hang, 11).0.status == Resting
  {
    SettleIn(b, hang, 10);
  }
}
