/** The game state and the operations that change it in place: the globals
    `block`, `board`, `bridge[2]`, `LEVEL` and `hang` (Sample_GL3_2D.cpp:74-78),
    and the routines that update them. */
module Game {
  import opened Rolling
  import opened Position
  import opened Motion
  import opened Bridges
  import opened Levels

  predicate InGrid(c: (int, int)) {
    0 <= c.0 < Size && 0 <= c.1 < Size
  }

  /** The bridges after the nudges a position check asks for. */
  function Nudged(brs: seq<Bridge>, v: Verdict): (r: seq<Bridge>)
    requires |brs| == 2
    ensures |r| == 2
    ensures forall k :: 0 <= k < 2 ==> r[k] == brs[k].(angle := r[k].angle)
  {
    [if v.nudge0 then brs[0].(angle := Nudge(brs[0].angle)) else brs[0],
     if v.nudge1 then brs[1].(angle := Nudge(brs[1].angle)) else brs[1]]
  }

  /** The board level 4 plays on: level_init(4) loads nothing, so level 3's
      board stays in place. */
  function BoardLevel(lv: int): int {
    if lv == 4 then 3 else lv
  }

  /** The invariant on the session's scalar fields: a reveal counter within
      the board, hinges in range (valid once built), a spawned block in one of
      the three shapes, and a breaking block over a board cell. */
  predicate FieldsSound(tilesCreated: int, noOfTiles: int, brs: seq<Bridge>, built: bool, spawned: bool, b: Block) {
    && 0 <= tilesCreated <= 2 * noOfTiles && tilesCreated % 2 == 0
    && |brs| == 2
    && (forall k :: 0 <= k < 2 ==> InRange(brs[k].angle))
    && (built ==> Ok(brs[0]) && Ok(brs[1]))
    && (spawned ==> Shaped(b.ext))
    && (b.status == Breaking ==> InGrid(StandCell(b)))
  }

  /** The position check keeps the invariant of a spawned block, provided a
      fragile tile is only ever read from a board cell. */
  lemma CheckKeepsSound(tc: int, n: int, brs: seq<Bridge>, built: bool, b: Block, tA: int, tB: int)
    requires FieldsSound(tc, n, brs, built, true, b)
    requires tA == 2 ==> InGrid(CellA(b))
    ensures var v := Check(b, tA, tB);
      FieldsSound(tc, n, Nudged(brs, v), built, true, v.block)
  {
    CheckKeepsPose(b, tA, tB);
    BreaksOnlyOnFragile(b, tA, tB);
    ShapedCases(b.ext);
  }

  /** A tick keeps the invariant: it moves the block only downwards and
      neither reshapes it nor starts or ends a break. */
  lemma TickKeepsSound(tc: int, n: int, brs: seq<Bridge>, built: bool, spawned: bool, b: Block, h: bool)
    requires FieldsSound(tc, n, brs, built, spawned, b)
    ensures FieldsSound(tc, n, brs, built, spawned, TickBlock(b, h).0)
  {
    TickNeverRises(b, h);
  }

  /** Revealing a pair keeps the counter even and within the board. */
  lemma RevealKeepsSound(tc: int, n: int, brs: seq<Bridge>, built: bool, spawned: bool, b: Block)
    requires FieldsSound(tc, n, brs, built, spawned, b) && tc < 2 * n
    ensures tc + 1 < 2 * n
    ensures FieldsSound(tc + 2, n, brs, built, spawned, b)
  {
  }

  /** Completing the roll of a resting block keeps the invariant. */
  lemma RollKeepsSound(tc: int, n: int, brs: seq<Bridge>, built: bool, b: Block)
    requires FieldsSound(tc, n, brs, built, true, b) && b.status == Resting
    ensures FieldsSound(tc, n, brs, built, true, Roll(b))
  {
    if b.key != Unset {
      RollKeepsShape(b);
    }
  }

  /** The session's scalar globals, everything a frame changes apart from the
      board and the tile arrays. */
  datatype Globals = Globals(block: Block, level: int, hang: bool, spawned: bool, built: bool,
                             quit: bool, bridges: seq<Bridge>, tilesCreated: int, noOfTiles: int)

  /** createBlock's fields (509-516): standing, half a unit above its resting
      height, settling, angle 0, where level_init put it. */
  function Spawned(b: Block): Block {
    b.(ext := StandingShape, y := 1.0, angle := 0, status := Settling)
  }

  /** Both bridges marked rising at angle 5 (1044-1049). */
  function Raised(brs: seq<Bridge>): (r: seq<Bridge>)
    requires |brs| == 2
  {
    [brs[0].(angle := 5, status := true), brs[1].(angle := 5, status := true)]
  }

  /** The untimed part of a frame (1034-1050), in source order: spawn a block
      on a complete board, reveal a pair when one is due, and set up the
      bridges once the board is complete. */
  function PrepareStep(g: Globals, revealDue: bool): (r: Globals)
    requires |g.bridges| == 2
    ensures |r.bridges| == 2
  {
    var spawn := !g.spawned && g.tilesCreated == 2 * g.noOfTiles;
    var tc := if g.tilesCreated < 2 * g.noOfTiles && revealDue then g.tilesCreated + 2 else g.tilesCreated;
    var build := tc == 2 * g.noOfTiles && !g.built;
    g.(block := if spawn then Spawned(g.block) else g.block,
       spawned := g.spawned || spawn,
       tilesCreated := tc,
       bridges := if build then Raised(g.bridges) else g.bridges,
       built := if build then g.level == 3 else g.built)
  }

  /** The timed update (1051-1097): built bridges step, then the block moves
      as `TickBlock` says with the `hang` the bridges left. */
  function TickStep(g: Globals): (r: Globals)
    requires |g.bridges| == 2
  {
    var h := if g.built then ToggleHang(g.bridges[1], ToggleHang(g.bridges[0], g.hang)) else g.hang;
    var bh := TickBlock(g.block, h);
    g.(bridges := if g.built then [Toggle(g.bridges[0]), Toggle(g.bridges[1])] else g.bridges,
       block := bh.0, hang := bh.1)
  }

  /** A falling, breaking or finished block below the death line on a level
      before the last (1104-1118). */
  predicate Restarts(g: Globals) {
    g.block.y < -3.0 && g.level != 4 && g.block.status in {Falling, Breaking, Reached}
  }

  /** The level a restart loads: the next one after reaching the target. */
  function NextLevel(g: Globals): int {
    if g.block.status == Reached then g.level + 1 else g.level
  }

  /** The death line (1100-1119): on level 4 the session quits; a restart
      reloads the same or the next level, which puts the block on its spawn
      cell, fixes level 3's bridge cells, and starts the run over. */
  function DeathStep(g: Globals): (r: Globals)
    requires |g.bridges| == 2
  {
    if g.block.y < -3.0 && g.level == 4 then g.(quit := true)
    else if Restarts(g) then
      var lv := NextLevel(g);
      var b := if lv <= 3
               then g.block.(x := Spawn(lv).0 as real / 2.0, z := Spawn(lv).1 as real / 2.0,
                             xDest := Destination(lv).0, zDest := Destination(lv).1)
               else g.block;
      g.(level := lv, block := b.(angle := 0, status := Resting), hang := false, spawned := false,
         built := false, tilesCreated := 0,
         noOfTiles := if lv <= 3 then TileCount(lv) / 2 else g.noOfTiles,
         bridges := if lv == 3
                    then [g.bridges[0].(x0 := 6, z0 := 4, x1 := 7, z1 := 4),
                          g.bridges[1].(x0 := 5, z0 := 8, x1 := 6, z1 := 8)]
                    else g.bridges)
    else g
  }

  /** The state after the untimed part and the tick, if one is due. */
  function Ticked(g: Globals, revealDue: bool, tickDue: bool): (r: Globals)
    requires |g.bridges| == 2
  {
    var p := PrepareStep(g, revealDue);
    if tickDue then TickStep(p) else p
  }

  /** One frame of the main loop after drawing (1033-1119). */
  function Frame(g: Globals, revealDue: bool, tickDue: bool): (r: Globals)
    requires |g.bridges| == 2
  {
    DeathStep(Ticked(g, revealDue, tickDue))
  }

  /** A frame moves the level up by one exactly when a block that reached the
      target is below the death line after the tick, and otherwise keeps it;
      it quits exactly on level 4 with the block below the line. */
  lemma FrameLevel(g: Globals, revealDue: bool, tickDue: bool)
    requires |g.bridges| == 2 && !g.quit
    ensures var t := Ticked(g, revealDue, tickDue);
      var r := Frame(g, revealDue, tickDue);
      && t.level == g.level
      && (r.level == g.level + 1 <==> Restarts(t) && t.block.status == Reached)
      && (r.level != g.level + 1 ==> r.level == g.level)
      && (r.quit <==> g.level == 4 && t.block.y < -3.0)
  {
  }

  /** On a complete board without a block a frame spawns one where
      level_init put it: standing and settling, at y = 1.0, or 0.95 when a
      tick follows. */
  lemma FrameSpawns(g: Globals, revealDue: bool, tickDue: bool)
    requires |g.bridges| == 2 && !g.spawned && g.tilesCreated == 2 * g.noOfTiles
    ensures var r := Frame(g, revealDue, tickDue);
      && r.spawned && r.level == g.level && r.tilesCreated == g.tilesCreated
      && r.block.status == Settling && r.block.ext == StandingShape && r.block.angle == 0
      && r.block.y == (if tickDue then 0.95 else 1.0)
      && r.block.x == g.block.x && r.block.z == g.block.z
  {
  }

  /** While more than one pair is hidden and no bridge is built, a frame on a
      resting block with no roll in flight does nothing but the reveal. */
  lemma FrameOnlyReveals(g: Globals, revealDue: bool, tickDue: bool)
    requires |g.bridges| == 2 && !g.built && g.tilesCreated + 2 < 2 * g.noOfTiles && g.level != 4
    requires g.block.status == Resting && g.block.angle == 0
    ensures Frame(g, revealDue, tickDue) == g.(tilesCreated := if revealDue then g.tilesCreated + 2 else g.tilesCreated)
  {
  }

  /** A restart onto a level with data leaves the block at rest, angle 0, on
      the level's spawn cell (solid, by `SpawnOnSolid`), aimed at its
      destination; nothing is revealed, and on level 3 the bridges own the
      cells of `BridgeCells`. */
  lemma RestartRespawns(g: Globals)
    requires |g.bridges| == 2 && Restarts(g) && 1 <= g.level && NextLevel(g) <= 3
    ensures var r := DeathStep(g);
      var lv := NextLevel(g);
      && r.level == lv && !r.spawned && !r.built && !r.hang && r.tilesCreated == 0
      && r.noOfTiles == TileCount(lv) / 2
      && r.block.status == Resting && r.block.angle == 0
      && StandCell(r.block) == Spawn(lv)
      && (r.block.xDest, r.block.zDest) == Destination(lv)
      && (lv == 3 ==> forall k :: 0 <= k < 2 ==>
            ((r.bridges[k].x0, r.bridges[k].z0), (r.bridges[k].x1, r.bridges[k].z1)) == BridgeCells[k])
  {
  }

  class Session {
    var block: Block
    /** `LEVEL` */
    var level: int
    var hang: bool
    /** `block.cuboid != NULL` */
    var spawned: bool
    /** `bridge[0].bridge[0] != NULL` */
    var bridgesBuilt: bool
    /** quit() has ended the process. */
    var quit: bool
    var bridges: seq<Bridge>
    var tilesCreated: int
    var noOfTiles: int
    /** `board.tile_type` */
    const board: array2<int>
    const tileX: array2<real>
    const tileY: array2<real>
    const tileZ: array2<real>
    const tileOrder: array<Coord>

    /** The shape of the state: the 14 by 14 arrays, the 400 entries of the
        reveal order, two bridges whose cells lie on the board. */
    ghost predicate Wf()
      reads this`bridges
    {
      && board.Length0 == Size && board.Length1 == Size
      && tileX.Length0 == Size && tileX.Length1 == Size
      && tileY.Length0 == Size && tileY.Length1 == Size
      && tileZ.Length0 == Size && tileZ.Length1 == Size
      && tileX != tileY && tileY != tileZ && tileX != tileZ
      && tileOrder.Length == 400
      && |bridges| == 2
      && (forall k :: 0 <= k < 2 ==>
            InGrid((bridges[k].x0, bridges[k].z0)) && InGrid((bridges[k].x1, bridges[k].z1)))
    }

    /** Every cell holds one of the tile kinds 0 to 4. */
    ghost predicate KindsOk()
      reads board
    {
      forall i, j :: 0 <= i < board.Length0 && 0 <= j < board.Length1 ==> 0 <= board[i, j] <= 4
    }

    /** The tile count and the reveal order are those of the current board. */
    ghost predicate OrderOk()
      reads this`level, this`noOfTiles, tileOrder
    {
      && 1 <= level <= 4
      && noOfTiles == TileCount(BoardLevel(level)) / 2
      && tileOrder.Length == 400
      && (forall k {:trigger OrderAt(BoardLevel(level), k)} :: 0 <= k < 400 ==> tileOrder[k] == OrderAt(BoardLevel(level), k))
    }

    /** A reveal counter within the board, hinges in range (valid once
        built), a spawned block in one of the three shapes, and a breaking
        block over a board cell. */
    ghost predicate FieldsOk()
      reads this`noOfTiles, this`tilesCreated, this`bridges, this`bridgesBuilt, this`spawned, this`block
    {
      FieldsSound(tilesCreated, noOfTiles, bridges, bridgesBuilt, spawned, block)
    }

    /** What the session keeps true between frames. */
    ghost predicate Consistent()
      reads this`bridges, this`level, this`noOfTiles, this`tilesCreated, this`bridgesBuilt,
            this`spawned, this`block, board, tileOrder
    {
      Wf() && KindsOk() && OrderOk() && FieldsOk()
    }

    /** Consistent, and the phase after the last level: level 4 has no block
        and the old block is still below the death line, so the next frame
        quits; quitting happens only there. */
    ghost predicate Valid()
      reads this, board, tileOrder
    {
      && Consistent()
      && (level == 4 ==> !spawned && block.y < -3.0 && tilesCreated <= 2 && (!quit ==> tilesCreated == 0))
      && (quit ==> level == 4)
    }

    /** The kind of tile under cell c; a cell off the board reads as a hole. */
    function TileAt(c: (int, int)): (t: int)
      reads board
      ensures !(0 <= c.0 < board.Length0 && 0 <= c.1 < board.Length1) ==> t == 0
    {
      if 0 <= c.0 < board.Length0 && 0 <= c.1 < board.Length1 then board[c.0, c.1] else 0
    }

    /** The position check's verdict for block b on the current board. */
    function Outcome(b: Block): Verdict
      reads board
    {
      Check(b, TileAt(CellA(b)), TileAt(CellB(b)))
    }

    /** The scalar globals of the session. */
    function Snapshot(): Globals
      reads this
    {
      Globals(block, level, hang, spawned, bridgesBuilt, quit, bridges, tilesCreated, noOfTiles)
    }

    /** The cell the next reveal places: the pair of the reveal order at the
        counter. */
    function NextPair(): (int, int)
      reads this`tilesCreated, tileOrder
    {
      if 0 <= tilesCreated && tilesCreated + 1 < tileOrder.Length
      then (tileOrder[tilesCreated] as int, tileOrder[tilesCreated + 1] as int)
      else (-1, -1)
    }

    /** The state level_init(lv) leaves for a level with data. */
    ghost predicate Loaded(lv: int)
      reads this`bridges, this`noOfTiles, this`block, board, tileOrder
    {
      && Wf()
      && noOfTiles == TileCount(lv) / 2
      && (forall i, j :: 0 <= i < Size && 0 <= j < Size ==> board[i, j] == InitialCell(lv, i, j))
      && (forall k :: 0 <= k < 400 ==> tileOrder[k] == OrderAt(lv, k))
      && block.x == Spawn(lv).0 as real / 2.0 && block.z == Spawn(lv).1 as real / 2.0
      && (block.xDest, block.zDest) == Destination(lv)
    }

    /** main's prologue (1011-1022): zeroed globals (tile positions
        included), LEVEL 1, level 1 loaded, no tile revealed, no bridge
        built. */
    constructor ()
      ensures Valid() && !quit
      ensures level == 1 && Loaded(1)
      ensures !hang && !spawned && !bridgesBuilt && tilesCreated == 0
      ensures block.status == Resting && block.angle == 0 && block.key == Unset
      ensures forall i, j :: 0 <= i < Size && 0 <= j < Size ==>
        tileX[i, j] == 0.0 && tileY[i, j] == 0.0 && tileZ[i, j] == 0.0
    {
      block := Block(0.0, 0.0, 0.0, Extents(0.0, 0.0, 0.0), 0, Unset, Resting, 0, 0);
      level := 1;
      hang := false;
      spawned := false;
      bridgesBuilt := false;
      quit := false;
      bridges := [Bridge(0, 0, 0, 0, 0, false), Bridge(0, 0, 0, 0, 0, false)];
      tilesCreated := 0;
      noOfTiles := 0;
      board := new int[Size, Size];
      tileX := new real[Size, Size]((i, j) => 0.0);
      tileY := new real[Size, Size]((i, j) => 0.0);
      tileZ := new real[Size, Size]((i, j) => 0.0);
      tileOrder := new Coord[400];
      new;
      Start();
    }

    /** The end of main's prologue (1019-1021): level_init on the current
        level, no tile revealed, no bridge built. */
    method Start()
      requires Wf() && level == 1 && !spawned
      requires forall k :: 0 <= k < 2 ==> InRange(bridges[k].angle)
      modifies board, tileOrder, this`noOfTiles, this`block, this`bridges, this`tilesCreated, this`bridgesBuilt
      ensures Consistent() && Loaded(1)
      ensures block == old(block).(x := 1.5, z := 2.5, xDest := 6, zDest := 9)
      ensures tilesCreated == 0 && !bridgesBuilt && bridges == old(bridges)
    {
      LevelInit(level);
      tilesCreated := 0;
      bridgesBuilt := false;
      assert KindsOk() by {
        assert forall i, j :: 0 <= i < Size && 0 <= j < Size ==> board[i, j] == InitialCell(1, i, j);
      }
      assert OrderOk() by {
        assert forall k :: 0 <= k < 400 ==> tileOrder[k] == OrderAt(1, k);
      }
    }

    /** initialize (922-934): every cell a hole except the first n / 2 pairs
        of tilePos, which become plain tiles; the reveal order is tilePos up
        to n and zero after it. */
    method Initialize(tilePos: seq<Coord>, n: int)
      requires Wf()
      requires 0 <= n <= |tilePos| && n % 2 == 0 && n <= 400
      modifies board, tileOrder, this`noOfTiles
      ensures Wf()
      ensures noOfTiles == n / 2
      ensures forall i, j :: 0 <= i < Size && 0 <= j < Size ==>
        board[i, j] == (if Listed(tilePos[..n], (i, j)) then 1 else 0)
      ensures forall k :: 0 <= k < 400 ==> tileOrder[k] == (if k < n then tilePos[k] else 0)
    {
      for i := 0 to Size
        invariant forall a, b :: 0 <= a < i && 0 <= b < Size ==> board[a, b] == 0
      {
        for j := 0 to Size
          invariant forall a, b :: 0 <= a < i && 0 <= b < Size ==> board[a, b] == 0
          invariant forall b :: 0 <= b < j ==> board[i, b] == 0
        {
          board[i, j] := 0;
        }
      }
      for k := 0 to 400
        invariant forall m :: 0 <= m < k ==> tileOrder[m] == 0
        invariant forall a, b :: 0 <= a < Size && 0 <= b < Size ==> board[a, b] == 0
      {
        tileOrder[k] := 0;
      }
      noOfTiles := n / 2;
      for k := 0 to n
        invariant forall m :: 0 <= m < 400 ==> tileOrder[m] == (if m < k then tilePos[m] else 0)
        invariant forall a, b :: 0 <= a < Size && 0 <= b < Size ==> board[a, b] == 0
        invariant noOfTiles == n / 2
      {
        tileOrder[k] := tilePos[k];
      }
      var k := 0;
      while k < n
        invariant 0 <= k <= n && k % 2 == 0
        invariant forall a, b :: 0 <= a < Size && 0 <= b < Size ==>
          board[a, b] == (if Listed(tilePos[..k], (a, b)) then 1 else 0)
        invariant forall m :: 0 <= m < 400 ==> tileOrder[m] == (if m < n then tilePos[m] else 0)
        invariant noOfTiles == n / 2
      {
        forall c: (int, int) {
          ListedSnoc(tilePos, k, c);
        }
        board[tilePos[k], tilePos[k + 1]] := 1;
        k := k + 2;
      }
      assert tilePos[..k] == tilePos[..n];
    }

    /** level_init (935-978): levels 1 to 3 load their tiles, place the block
        on the spawn cell and write the destination and the special tiles;
        level 3 also places its bridges. Any other level changes nothing. */
    method LevelInit(lv: int)
      requires Wf()
      modifies board, tileOrder, this`noOfTiles, this`block, this`bridges
      ensures Wf()
      ensures 1 <= lv <= 3 ==> Loaded(lv)
      ensures 1 <= lv <= 3 ==> block == old(block).(x := block.x, z := block.z, xDest := block.xDest, zDest := block.zDest)
      ensures lv == 3 ==> bridges == [old(bridges)[0].(x0 := 6, z0 := 4, x1 := 7, z1 := 4),
                                      old(bridges)[1].(x0 := 5, z0 := 8, x1 := 6, z1 := 8)]
      ensures lv != 3 ==> bridges == old(bridges)
      ensures !(1 <= lv <= 3) ==> unchanged(board, tileOrder) && noOfTiles == old(noOfTiles) && block == old(block)
    {
      if lv == 1 {
        LoadLevel1();
      } else if lv == 2 {
        LoadLevel2();
      } else if lv == 3 {
        LoadLevel3();
      }
    }

    /** The first case of level_init (939-946). */
    method LoadLevel1()
      requires Wf()
      modifies board, tileOrder, this`noOfTiles, this`block
      ensures Loaded(1)
      ensures block == old(block).(x := 1.5, z := 2.5, xDest := 6, zDest := 9)
    {
      Initialize(Tiles(1), 74);
      assert Tiles(1)[..74] == Tiles(1);
      block := block.(x := 3 as real / 2.0, z := 5 as real / 2.0);
      block := block.(xDest := 6, zDest := 9);
      board[6, 9] := 1;
    }

    /** The second case of level_init (949-960). */
    method LoadLevel2()
      requires Wf()
      modifies board, tileOrder, this`noOfTiles, this`block
      ensures Loaded(2)
      ensures block == old(block).(x := 2.0, z := 5.0, xDest := 3, zDest := 4)
    {
      Initialize(Tiles(2), 96);
      assert Tiles(2)[..96] == Tiles(2);
      MarkFragile();
      block := block.(x := 4 as real / 2.0, z := 10 as real / 2.0);
      block := block.(xDest := 3, zDest := 4);
      board[3, 4] := 1;
    }

    /** Level 2's fragile tiles (955-956): kind 2 on the eight cells of
        `Fragile`, every other cell unchanged. */
    method MarkFragile()
      requires Wf()
      modifies board
      ensures forall i, j :: 0 <= i < Size && 0 <= j < Size ==>
        board[i, j] == (if (i, j) in Fragile then 2 else old(board[i, j]))
    {
      board[10, 4] := 2; board[11, 4] := 2; board[9, 4] := 2; board[9, 3] := 2;
      board[10, 3] := 2; board[11, 3] := 2; board[9, 2] := 2; board[10, 2] := 2;
    }

    /** The third case of level_init (962-975). */
    method LoadLevel3()
      requires Wf()
      modifies board, tileOrder, this`noOfTiles, this`block, this`bridges
      ensures Loaded(3)
      ensures block == old(block).(x := 2.0, z := 2.0, xDest := 3, zDest := 8)
      ensures bridges == [old(bridges)[0].(x0 := 6, z0 := 4, x1 := 7, z1 := 4),
                          old(bridges)[1].(x0 := 5, z0 := 8, x1 := 6, z1 := 8)]
    {
      Initialize(Tiles(3), 68);
      assert Tiles(3)[..68] == Tiles(3);
      bridges := [bridges[0].(x0 := 6, z0 := 4, x1 := 7, z1 := 4),
                  bridges[1].(x0 := 5, z0 := 8, x1 := 6, z1 := 8)];
      block := block.(x := 4 as real / 2.0, z := 4 as real / 2.0);
      block := block.(xDest := 3, zDest := 8);
      board[3, 8] := 1;
      board[2, 4] := 3;
      board[9, 7] := 4;
    }

    /** createBlock (509-516), its fields: a standing block half a unit above
        its resting height, settling, angle 0, at the spawn position
        level_init chose. */
    method CreateBlock()
      requires Consistent()
      modifies this`block, this`spawned
      ensures Consistent() && spawned
      ensures block == old(block).(ext := StandingShape, y := 1.0, angle := 0, status := Settling)
      ensures Shaped(block.ext) && IsStanding(block.ext) && block.y == block.ext.height / 2.0 + 0.5
    {
      block := block.(ext := Extents(0.5, 0.5, 1.0));
      block := block.(y := block.ext.height / 2.0 + 0.5);
      block := block.(angle := 0, status := Resting);
      block := block.(status := Settling);
      spawned := true;
      ShapedCases(block.ext);
    }

    /** createTile (532-534), its fields: the tile sits at half its grid
        coordinates, 0.1 below the floor. */
    method CreateTile(i: Coord, j: Coord)
      requires Wf()
      modifies tileX, tileY, tileZ
      ensures tileX[i, j] == i as real / 2.0 && tileY[i, j] == -0.1 && tileZ[i, j] == j as real / 2.0
      ensures forall a, b :: 0 <= a < Size && 0 <= b < Size && (a, b) != (i, j) ==>
        tileX[a, b] == old(tileX[a, b]) && tileY[a, b] == old(tileY[a, b]) && tileZ[a, b] == old(tileZ[a, b])
    {
      tileX[i, j] := i as real / 2.0;
      tileY[i, j] := -0.2 / 2.0;
      tileZ[i, j] := j as real / 2.0;
    }

    /** Check_Block_Pos (564-631): the decision of `Check` on the tiles under
        the footprint, carried out on the state: the block takes the
        verdict's block, a broken fragile tile becomes a hole, and the
        switched bridges are nudged. The three orientation tests run in turn;
        as the block has one of the three shapes, exactly one of them holds. */
    method CheckBlockPos()
      requires Consistent() && spawned
      modifies board, this`block, this`bridges
      ensures Consistent()
      ensures var v := old(Outcome(block));
        && block == v.block
        && bridges == Nudged(old(bridges), v)
        && (forall i, j :: 0 <= i < Size && 0 <= j < Size ==>
              board[i, j] == (if v.clear && (i, j) == CellA(old(block)) then 0 else old(board[i, j])))
    {
      ghost var c := CellA(block);
      CheckKeepsSound(tilesCreated, noOfTiles, bridges, bridgesBuilt, block, TileAt(c), TileAt(CellB(block)));
      ShapedCases(block.ext);
      if block.ext.height == 2.0 * block.ext.length {
        CheckStanding();
      }
      if block.ext.length == 2.0 * block.ext.height {
        CheckLyingX();
      }
      if block.ext.breadth == 2.0 * block.ext.height {
        CheckLyingZ();
      }
    }

    /** The standing rules of Check_Block_Pos (567-587). */
    method CheckStanding()
      requires Wf() && KindsOk() && IsStanding(block.ext)
      modifies board, this`block, this`bridges
      ensures Wf() && KindsOk() && block.ext == old(block.ext)
      ensures var v := old(Outcome(block));
        && block == v.block
        && bridges == Nudged(old(bridges), v)
        && (forall i, j :: 0 <= i < Size && 0 <= j < Size ==>
              board[i, j] == (if v.clear && (i, j) == CellA(old(block)) then 0 else old(board[i, j])))
    {
      var x := Trunc(block.x * 2.0);
      var z := Trunc(block.z * 2.0);
      if TileAt((x, z)) == 0 {
        block := block.(status := Falling);
      }
      if TileAt((x, z)) == 2 {
        block := block.(status := Breaking);
        board[x, z] := 0;
      }
      if x == block.xDest && z == block.zDest {
        block := block.(status := Reached);
      }
      if TileAt((x, z)) == 4 {
        if bridges[1].angle == 0 {
          bridges := bridges[1 := bridges[1].(angle := 5)];
        } else if bridges[1].angle == 90 {
          bridges := bridges[1 := bridges[1].(angle := 85)];
        }
      }
    }

    /** The rules for a block lying along x (588-612): it never changes the
        board. */
    method CheckLyingX()
      requires Wf() && IsLyingX(block.ext) && !IsStanding(block.ext)
      modifies this`block, this`bridges
      ensures Wf() && block.ext == old(block.ext)
      ensures var v := old(Outcome(block));
        block == v.block && bridges == Nudged(old(bridges), v) && !v.clear
    {
      var x := Trunc((block.x - block.ext.length / 4.0) * 2.0);
      var z := Trunc(block.z * 2.0);
      if TileAt((x, z)) == 0 && TileAt((x + 1, z)) == 0 {
        block := block.(status := Falling);
      } else if TileAt((x, z)) == 0 {
        block := block.(key := L, angle := block.angle + 25, status := Falling);
      } else if TileAt((x + 1, z)) == 0 {
        block := block.(key := R, angle := block.angle + 25, status := Falling);
      } else if TileAt((x, z)) == 3 {
        if bridges[0].angle == 0 {
          bridges := bridges[0 := bridges[0].(angle := 5)];
        } else if bridges[0].angle == 90 {
          bridges := bridges[0 := bridges[0].(angle := 85)];
        }
      }
    }

    /** The rules for a block lying along z (613-630): it changes neither the
        board nor a bridge. */
    method CheckLyingZ()
      requires Wf() && IsLyingZ(block.ext) && !IsStanding(block.ext) && !IsLyingX(block.ext)
      modifies this`block
      ensures block.ext == old(block.ext)
      ensures var v := old(Outcome(block));
        block == v.block && !v.clear && !v.nudge0 && !v.nudge1
    {
      var z := Trunc((block.z - block.ext.length / 4.0) * 2.0);
      var x := Trunc(block.x * 2.0);
      if TileAt((x, z)) == 0 && TileAt((x, z + 1)) == 0 {
        block := block.(status := Falling);
      } else if TileAt((x, z)) == 0 {
        block := block.(key := U, angle := block.angle + 25, status := Falling);
      } else if TileAt((x, z + 1)) == 0 {
        block := block.(key := D, angle := block.angle + 25, status := Falling);
      }
    }

    /** draw's call of moveBlock (833-834): only a spawned block outside the
        block view is moved, and its roll completes only when it rests with
        its angle at 90 or more (666). */
    method MoveBlock(blockView: bool)
      requires Consistent()
      modifies board, this`block, this`hang, this`bridges
      ensures Consistent()
      ensures !(spawned && !blockView && old(block).angle >= 90 && old(block).status == Resting) ==>
        block == old(block) && hang == old(hang) && bridges == old(bridges) && unchanged(board)
      ensures spawned && !blockView && old(block).angle >= 90 && old(block).status == Resting ==>
        var r := Roll(old(block));
        var v := old(Outcome(r));
        && !hang && block == v.block
        && bridges == Nudged(old(bridges), v)
        && (forall i, j :: 0 <= i < Size && 0 <= j < Size ==>
              board[i, j] == (if v.clear && (i, j) == CellA(r) then 0 else old(board[i, j])))
    {
      if spawned && !blockView {
        if block.angle >= 90 && block.status == Resting {
          RollAndCheck();
        }
      }
    }

    /** The roll-completion branch of moveBlock (666-696): a resting block
        whose roll angle reached 90 takes the rolled pose, `hang` is cleared,
        and the position check runs on the new footprint. */
    method RollAndCheck()
      requires Consistent() && spawned && block.status == Resting
      modifies board, this`block, this`hang, this`bridges
      ensures Consistent()
      ensures var r := Roll(old(block));
        var v := old(Outcome(r));
        && !hang && block == v.block
        && bridges == Nudged(old(bridges), v)
        && (forall i, j :: 0 <= i < Size && 0 <= j < Size ==>
              board[i, j] == (if v.clear && (i, j) == CellA(r) then 0 else old(board[i, j])))
    {
      RollKeepsSound(tilesCreated, noOfTiles, bridges, bridgesBuilt, block);
      CompleteRoll();
      CheckBlockPos();
    }

    /** The pose change of moveBlock (668-694): angle 0, `hang` cleared, the
        block moved and its extents swapped as `Roll` says. */
    method CompleteRoll()
      modifies this`block, this`hang
      ensures block == Roll(old(block)) && !hang
    {
      block := block.(angle := 0);
      hang := false;
      if block.key == R {
        block := block.(x := block.x + (block.ext.length / 2.0 + block.ext.height / 2.0));
        block := block.(y := block.ext.length / 2.0);
        block := block.(ext := Extents(block.ext.height, block.ext.breadth, block.ext.length));
      }
      if block.key == L {
        block := block.(x := block.x - (block.ext.length / 2.0 + block.ext.height / 2.0));
        block := block.(y := block.ext.length / 2.0);
        block := block.(ext := Extents(block.ext.height, block.ext.breadth, block.ext.length));
      }
      if block.key == U {
        block := block.(z := block.z - (block.ext.breadth / 2.0 + block.ext.height / 2.0));
        block := block.(y := block.ext.breadth / 2.0);
        block := block.(ext := Extents(block.ext.length, block.ext.height, block.ext.breadth));
      }
      if block.key == D {
        block := block.(z := block.z + (block.ext.breadth / 2.0 + block.ext.height / 2.0));
        block := block.(y := block.ext.breadth / 2.0);
        block := block.(ext := Extents(block.ext.length, block.ext.height, block.ext.breadth));
      }
    }

    /** toggleBridge (979-1005) on bridge k: the hinge takes one step of
        `Toggle`, `hang` follows `ToggleHang`, and the two owned cells are
        rewritten on arrival. */
    method ToggleBridge(k: int)
      requires Wf() && 0 <= k < 2
      modifies board, this`bridges, this`hang
      ensures Wf()
      ensures bridges == old(bridges)[k := Toggle(old(bridges)[k])]
      ensures hang == ToggleHang(old(bridges)[k], old(hang))
      ensures forall i, j :: 0 <= i < Size && 0 <= j < Size ==>
        board[i, j] == ToggledTile(old(bridges)[k], (i, j), old(board[i, j]))
    {
      var br := bridges[k];
      if br.status && br.angle > 0 {
        br := br.(angle := br.angle + 5);
        hang := true;
        if br.angle == 90 {
          board[br.x0, br.z0] := 0;
          board[br.x1, br.z1] := 0;
          br := br.(status := false);
          hang := false;
        }
      } else if !br.status && br.angle < 90 {
        br := br.(angle := br.angle - 5);
        hang := true;
        if br.angle == 0 {
          board[br.x0, br.z0] := 1;
          board[br.x1, br.z1] := 1;
          br := br.(status := true);
          hang := false;
        }
      }
      bridges := bridges[k := br];
    }

    /** One timed update (1051-1097): the built bridges step, then the block
        moves as `TickBlock` says, given the `hang` the bridges left; a
        breaking block drags its tile down with it. */
    method Tick()
      requires Consistent()
      modifies board, tileY, this`bridges, this`hang, this`block
      ensures Consistent() && block.y <= old(block.y)
      ensures bridges == (if bridgesBuilt then [Toggle(old(bridges)[0]), Toggle(old(bridges)[1])] else old(bridges))
      ensures var h := if bridgesBuilt then ToggleHang(old(bridges)[1], ToggleHang(old(bridges)[0], old(hang))) else old(hang);
        (block, hang) == TickBlock(old(block), h)
      ensures forall i, j :: 0 <= i < Size && 0 <= j < Size ==>
        board[i, j] == (if bridgesBuilt
                        then ToggledTile(old(bridges)[1], (i, j), ToggledTile(old(bridges)[0], (i, j), old(board[i, j])))
                        else old(board[i, j]))
      ensures forall i, j :: 0 <= i < Size && 0 <= j < Size ==>
        tileY[i, j] == (if old(block).status == Breaking && (i, j) == StandCell(old(block))
                        then old(tileY[i, j]) - 0.25 else old(tileY[i, j]))
    {
      if bridgesBuilt {
        StepBridges();
      }
      TickKeepsSound(tilesCreated, noOfTiles, bridges, bridgesBuilt, spawned, block, hang);
      TickNeverRises(block, hang);
      Descend();
    }

    /** The two toggleBridge calls of a tick (1053-1057). */
    method StepBridges()
      requires Wf() && KindsOk() && FieldsOk() && bridgesBuilt
      modifies board, this`bridges, this`hang
      ensures Wf() && KindsOk() && FieldsOk()
      ensures bridges == [Toggle(old(bridges)[0]), Toggle(old(bridges)[1])]
      ensures hang == ToggleHang(old(bridges)[1], ToggleHang(old(bridges)[0], old(hang)))
      ensures forall i, j :: 0 <= i < Size && 0 <= j < Size ==>
        board[i, j] == ToggledTile(old(bridges)[1], (i, j), ToggledTile(old(bridges)[0], (i, j), old(board[i, j])))
    {
      ToggleStep(bridges[0]);
      ToggleStep(bridges[1]);
      ToggleBridge(0);
      ToggleBridge(1);
    }

    /** The block's part of a tick (1058-1097), the two status chains in
        source order; the tile under a breaking block sinks with it. */
    method Descend()
      requires Wf() && (block.status == Breaking ==> InGrid(StandCell(block)))
      modifies tileY, this`block, this`hang
      ensures (block, hang) == TickBlock(old(block), old(hang))
      ensures forall i, j :: 0 <= i < Size && 0 <= j < Size ==>
        tileY[i, j] == (if old(block).status == Breaking && (i, j) == StandCell(old(block))
                        then old(tileY[i, j]) - 0.25 else old(tileY[i, j]))
    {
      if block.status == Falling {
        block := block.(angle := block.angle + 10);
        if block.angle > 360 {
          block := block.(angle := block.angle - 360);
        }
        block := block.(y := block.y - 0.5);
      } else if block.status == Settling {
        if block.y > block.ext.height / 2.0 {
          block := block.(y := block.y - 0.05);
        } else {
          hang := false;
          block := block.(status := Resting);
        }
      } else if block.status == Breaking {
        block := block.(y := block.y - 0.25);
        var x := Trunc(block.x * 2.0);
        var z := Trunc(block.z * 2.0);
        tileY[x, z] := tileY[x, z] - 0.25;
      }
      if block.status == Tipping {
        block := block.(angle := block.angle + 10);
        if block.angle >= 90 {
          block := block.(angle := 0, status := Falling);
        }
        // The angle is below 90 here, so the wrap never applies.
        var a := block.angle;
        if a > 360 {
          a := a - 360;
        }
        block := block.(angle := a);
      } else if block.status == Reached {
        block := block.(y := block.y - 0.25);
      } else if block.angle != 0 {
        block := block.(angle := block.angle + 10);
        hang := true;
      }
    }

    /** The arrow-key release (270-291): ignored while `hang` holds; otherwise,
        outside the block view, it sets the roll direction and starts the
        roll with 10 degrees. */
    method ArrowRelease(arrow: Key, blockView: bool)
      requires arrow != Unset
      modifies this`block
      ensures !old(hang) && !blockView ==> block == old(block).(key := arrow, angle := old(block).angle + 10)
      ensures old(hang) || blockView ==> block == old(block)
    {
      if !hang {
        if !blockView {
          block := block.(key := arrow, angle := block.angle + 10);
        }
      }
    }

    /** The death line (1100-1119): below y = -3 the session quits on level 4;
        a falling or breaking block reloads its level, a block that reached
        the target loads the next one, and either way the block is removed
        and the reveal starts over. Anything else is left alone. */
    method ResolveDeath()
      requires Consistent() && !quit
      requires level == 4 ==> !spawned && block.y < -3.0 && tilesCreated <= 2
      modifies board, tileOrder, this`noOfTiles, this`block, this`bridges, this`level, this`hang,
               this`spawned, this`bridgesBuilt, this`tilesCreated, this`quit
      ensures Valid()
      ensures old(block.y) >= -3.0 || (old(level) != 4 && old(block.status) !in {Falling, Breaking, Reached}) ==>
        unchanged(this, board, tileOrder)
      ensures old(block.y) < -3.0 && old(level) == 4 ==>
        quit && unchanged(board, tileOrder) && old(Snapshot()).(quit := true) == Snapshot()
      ensures old(block.y) < -3.0 && old(level) != 4 && old(block.status) in {Falling, Breaking, Reached} ==>
        && !quit
        && level == (if old(block.status) == Reached then old(level) + 1 else old(level))
        && (level <= 3 ==> Loaded(level))
        && (level == 4 ==> unchanged(board, tileOrder) && block.x == old(block.x) && block.z == old(block.z))
        && block.angle == 0 && block.status == Resting
        && block.y == old(block.y) && block.ext == old(block.ext) && block.key == old(block.key)
        && !hang && !spawned && !bridgesBuilt && tilesCreated == 0
      ensures Snapshot() == DeathStep(old(Snapshot()))
    {
      if block.y < -3.0 {
        if level == 4 {
          quit := true;
          return;
        }
        if block.status == Falling || block.status == Breaking || block.status == Reached {
          Restart();
        }
      }
    }

    /** A dead or finished block below the death line (1104-1118): falling
        and breaking reload the level, reaching the target loads the next
        one, and the run starts over. */
    method Restart()
      requires Consistent() && level <= 3 && block.status in {Falling, Breaking, Reached} && block.y < -3.0
      modifies board, tileOrder, this`noOfTiles, this`block, this`bridges, this`level, this`hang,
               this`spawned, this`bridgesBuilt, this`tilesCreated
      ensures Consistent()
      ensures level == (if old(block.status) == Reached then old(level) + 1 else old(level))
      ensures level <= 3 ==> Loaded(level)
      ensures level == 4 ==> unchanged(board, tileOrder) && block.x == old(block.x) && block.z == old(block.z)
      ensures block.angle == 0 && block.status == Resting
      ensures block.y == old(block.y) && block.ext == old(block.ext) && block.key == old(block.key)
      ensures !hang && !spawned && !bridgesBuilt && tilesCreated == 0
      ensures Snapshot() == DeathStep(old(Snapshot()))
    {
      if block.status == Falling || block.status == Breaking {
        LevelInit(level);
      }
      if block.status == Reached {
        level := level + 1;
        LevelInit(level);
      }
      ClearRun();
    }

    /** The reset of a run (1110-1117): the block is removed at rest with
        angle 0, the bridges are dropped and no tile is revealed. */
    method ClearRun()
      requires Wf() && KindsOk() && OrderOk() && (forall k :: 0 <= k < 2 ==> InRange(bridges[k].angle))
      modifies this`block, this`hang, this`spawned, this`bridgesBuilt, this`tilesCreated
      ensures Consistent()
      ensures block == old(block).(angle := 0, status := Resting)
      ensures !hang && !spawned && !bridgesBuilt && tilesCreated == 0
    {
      block := block.(angle := 0);
      hang := false;
      spawned := false;
      bridgesBuilt := false;
      block := block.(status := Resting);
      tilesCreated := 0;
    }

    /** One frame of the main loop after drawing (1033-1119). The wall clock
        is replaced by `revealDue` (0.1 s since the last reveal) and `tickDue`
        (0.05 s since the last update). The scalar globals follow `Frame`;
        the board is reloaded by a restart onto a level with data and
        otherwise rewritten only by the bridges' arrival; the revealed pair
        is placed, and the tile under a breaking block sinks. */
    method Update(revealDue: bool, tickDue: bool)
      requires Valid() && !quit
      modifies this, board, tileOrder, tileX, tileY, tileZ
      ensures Valid()
      ensures Snapshot() == Frame(old(Snapshot()), revealDue, tickDue)
      ensures var t := Ticked(old(Snapshot()), revealDue, tickDue);
        Restarts(t) && NextLevel(t) <= 3 ==> Loaded(level)
      ensures var p := PrepareStep(old(Snapshot()), revealDue);
        var t := if tickDue then TickStep(p) else p;
        !(Restarts(t) && NextLevel(t) <= 3) ==>
          && unchanged(tileOrder)
          && forall i, j :: 0 <= i < Size && 0 <= j < Size ==>
               board[i, j] == (if tickDue && p.built
                               then ToggledTile(p.bridges[1], (i, j), ToggledTile(p.bridges[0], (i, j), old(board[i, j])))
                               else old(board[i, j]))
      ensures var p := PrepareStep(old(Snapshot()), revealDue);
        var placed := old(tilesCreated < 2 * noOfTiles) && revealDue;
        forall i, j :: 0 <= i < Size && 0 <= j < Size ==>
          var here := placed && (i, j) == old(NextPair());
          var y := if here then -0.1 else old(tileY[i, j]);
          && tileX[i, j] == (if here then i as real / 2.0 else old(tileX[i, j]))
          && tileZ[i, j] == (if here then j as real / 2.0 else old(tileZ[i, j]))
          && tileY[i, j] == (if tickDue && p.block.status == Breaking && (i, j) == StandCell(p.block)
                             then y - 0.25 else y)
    {
      Prepare(revealDue);
      TickAndResolve(tickDue);
    }

    /** The timed part of a frame (1051-1119): the tick when one is due, then
        the death line. */
    method TickAndResolve(tickDue: bool)
      requires Consistent() && !quit
      requires level == 4 ==> !spawned && block.y < -3.0 && tilesCreated <= 2
      modifies board, tileOrder, tileY, this`noOfTiles, this`block, this`bridges, this`level, this`hang,
               this`spawned, this`bridgesBuilt, this`tilesCreated, this`quit
      ensures Valid()
      ensures var t := if tickDue then TickStep(old(Snapshot())) else old(Snapshot());
        Snapshot() == DeathStep(t) && (Restarts(t) && NextLevel(t) <= 3 ==> Loaded(level))
      ensures var t := if tickDue then TickStep(old(Snapshot())) else old(Snapshot());
        !(Restarts(t) && NextLevel(t) <= 3) ==>
          && unchanged(tileOrder)
          && forall i, j :: 0 <= i < Size && 0 <= j < Size ==>
               board[i, j] == (if tickDue && old(bridgesBuilt)
                               then ToggledTile(old(bridges)[1], (i, j), ToggledTile(old(bridges)[0], (i, j), old(board[i, j])))
                               else old(board[i, j]))
      ensures forall i, j :: 0 <= i < Size && 0 <= j < Size ==>
        tileY[i, j] == (if tickDue && old(block).status == Breaking && (i, j) == StandCell(old(block))
                        then old(tileY[i, j]) - 0.25 else old(tileY[i, j]))
    {
      if tickDue {
        Tick();
      }
      assert level == 4 ==> !spawned && tilesCreated <= 2 && block.y < -3.0;
      ResolveDeath();
    }

    /** The untimed part of a frame (1034-1050): a block appears once every
        tile is revealed, the next pair is revealed when one is due, and the
        bridges are set up once the board is complete, as `PrepareStep` says;
        only the revealed pair's tile moves. */
    method Prepare(revealDue: bool)
      requires Consistent()
      modifies tileX, tileY, tileZ, this`block, this`spawned, this`tilesCreated, this`bridges, this`bridgesBuilt
      ensures Consistent()
      ensures Snapshot() == PrepareStep(old(Snapshot()), revealDue)
      ensures var placed := old(tilesCreated < 2 * noOfTiles) && revealDue;
        forall i, j :: 0 <= i < Size && 0 <= j < Size ==>
          var here := placed && (i, j) == old(NextPair());
          && tileX[i, j] == (if here then i as real / 2.0 else old(tileX[i, j]))
          && tileY[i, j] == (if here then -0.1 else old(tileY[i, j]))
          && tileZ[i, j] == (if here then j as real / 2.0 else old(tileZ[i, j]))
    {
      SpawnIfComplete();
      RevealIfDue(revealDue);
      BuildIfComplete();
    }

    /** The spawn test of a frame (1034-1035): a block is created on a
        complete board that has none. */
    method SpawnIfComplete()
      requires Consistent()
      modifies this`block, this`spawned
      ensures Consistent()
      ensures var spawn := old(!spawned && tilesCreated == 2 * noOfTiles);
        block == (if spawn then Spawned(old(block)) else old(block)) && spawned == (old(spawned) || spawn)
    {
      if !spawned && tilesCreated == 2 * noOfTiles {
        CreateBlock();
      }
    }

    /** The bridge test of a frame (1042-1050): the bridges are set up on a
        complete board until they are built. */
    method BuildIfComplete()
      requires Consistent()
      modifies this`bridges, this`bridgesBuilt
      ensures Consistent()
      ensures var build := tilesCreated == 2 * noOfTiles && !old(bridgesBuilt);
        && bridges == (if build then Raised(old(bridges)) else old(bridges))
        && bridgesBuilt == (if build then level == 3 else old(bridgesBuilt))
    {
      if tilesCreated == 2 * noOfTiles && !bridgesBuilt {
        BuildBridges();
      }
    }

    /** The reveal test of a frame (1036): a pair is revealed when one is due
        and some are still hidden. */
    method RevealIfDue(revealDue: bool)
      requires Consistent()
      modifies tileX, tileY, tileZ, this`tilesCreated
      ensures Consistent()
      ensures tilesCreated == (if old(tilesCreated < 2 * noOfTiles) && revealDue then old(tilesCreated) + 2 else old(tilesCreated))
      ensures var placed := old(tilesCreated < 2 * noOfTiles) && revealDue;
        forall i, j :: 0 <= i < Size && 0 <= j < Size ==>
          var here := placed && (i, j) == old(NextPair());
          && tileX[i, j] == (if here then i as real / 2.0 else old(tileX[i, j]))
          && tileY[i, j] == (if here then -0.1 else old(tileY[i, j]))
          && tileZ[i, j] == (if here then j as real / 2.0 else old(tileZ[i, j]))
    {
      if tilesCreated < 2 * noOfTiles && revealDue {
        RevealNext();
      }
    }

    /** The timed reveal (1036-1041): the next pair of the reveal order
        becomes a tile, and no other tile moves. */
    method RevealNext()
      requires Consistent() && tilesCreated < 2 * noOfTiles
      modifies tileX, tileY, tileZ, this`tilesCreated
      ensures Consistent()
      ensures tilesCreated == old(tilesCreated) + 2
      ensures forall i, j :: 0 <= i < Size && 0 <= j < Size ==>
        var here := (i, j) == old(NextPair());
        && tileX[i, j] == (if here then i as real / 2.0 else old(tileX[i, j]))
        && tileY[i, j] == (if here then -0.1 else old(tileY[i, j]))
        && tileZ[i, j] == (if here then j as real / 2.0 else old(tileZ[i, j]))
    {
      RevealKeepsSound(tilesCreated, noOfTiles, bridges, bridgesBuilt, spawned, block);
      CreateTile(tileOrder[tilesCreated], tileOrder[tilesCreated + 1]);
      tilesCreated := tilesCreated + 2;
    }

    /** The bridge set-up once every tile is revealed (1042-1050): createBridge
        builds them only on level 3, at angle 0; on every level both are then
        marked rising and set to 5. */
    method BuildBridges()
      requires Consistent() && !bridgesBuilt
      modifies this`bridges, this`bridgesBuilt
      ensures Consistent()
      ensures bridgesBuilt == (level == 3)
      ensures bridges == [old(bridges)[0].(angle := 5, status := true), old(bridges)[1].(angle := 5, status := true)]
    {
      if level == 3 {
        bridges := bridges[0 := bridges[0].(angle := 0)];
        bridgesBuilt := true;
      }
      bridges := bridges[0 := bridges[0].(status := true)];
      if level == 3 {
        bridges := bridges[1 := bridges[1].(angle := 0)];
      }
      bridges := bridges[1 := bridges[1].(status := true)];
      bridges := bridges[0 := bridges[0].(angle := 5)];
      bridges := bridges[1 := bridges[1].(angle := 5)];
    }
  }
}
