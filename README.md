# Rolling-block puzzle: a verified model of the game rules

This project models the rules of a rolling-cuboid maze game written in C++
against OpenGL (`Sample_GL3_2D.cpp`). A 0.5 x 0.5 x 1.0 block tips edge over
edge across a 14 x 14 board. A tile is a hole (kind 0), solid (1), fragile
(2), or the switch of one of level 3's two hinged bridges (3 and 4). The block
falls through holes, breaks fragile tiles, and descends into the destination
cell to finish a level. The game state is the set of globals `block`, `board`,
`bridge[2]`, `LEVEL` and `hang`. It is modelled as one object,
`Game.Session`, whose methods change it in place as the source does:

- roll completion (`moveBlock`);
- the position check (`Check_Block_Pos`);
- bridge stepping (`toggleBridge`);
- level loading (`initialize`, `level_init`);
- block spawn and tile reveal (`createBlock`, `createTile`, field set-up only);
- the arrow-key admission of `keyboard`;
- the body of the main loop: staged reveal, bridge set-up, the timed tick,
  and death or advance below y = -3.

Each method's contract gives the new state in terms of the old; where the
source's computation is more than a few field writes, it does so through a
pure specification function, and the properties the game relies on are proved as lemmas about
those functions:

- `Rolling.Roll` is the pose change of a completed roll;
- `Position.Check` is the position check's verdict on the tiles under the
  footprint;
- `Bridges.Toggle` is one call of `toggleBridge`;
- `Motion.TickBlock` is the block's part of a tick;
- `Levels.InitialCell` and `Levels.OrderAt` are the board and the reveal order
  a level loads;
- `Game.Frame` is one frame of the main loop on the scalar globals, composed
  of `Game.PrepareStep`, `Game.TickStep` and `Game.DeathStep`.

The class invariant `Consistent` ties the fields together and is preserved by
every operation. It says:

- every cell holds a kind from 0 to 4;
- the reveal order is the current level's table;
- the reveal counter is even and within the table;
- hinge angles are multiples of 5 in [0, 90];
- a spawned block has one of the three resting shapes;
- a breaking block stands over a board cell.

Positions, extents and heights are exact `real`s. They stand in for the
source's doubles: the source means multiples of 0.05, but its repeated 0.05
steps drift in binary (from y = 1.0 they give 0.8999999999999999, ...,
0.4999999999999996), and the reals abstract that drift away. Angles are
integers. The C++ conversion
`(int)` of a double truncates toward zero, and is written out as
`Rolling.Trunc`. Fall statuses 0 to 5 are the constructors of
`Rolling.Status`, in the source's order.

Some of the code's behaviour is easy to misread; the model follows the code:

- Two right rolls from standing move the block 1.5 units, three grid cells;
  `Rolling.TwoRightRolls` proves this.
- A falling block turns by 20 degrees per tick, because both status chains of
  the tick add 10 (`Motion.TickAdvancesAngle`).
- A command is admitted whenever `hang` is false. `hang` is set by every
  tick of a roll in flight (1096) and while a bridge moves (984, 996), and it
  is cleared when a roll completes, a bridge arrives, a settling block comes
  to rest or a run restarts (1111, `ClearRun`). A second arrow release before the first tick of a roll is therefore
  also accepted.
- Nothing sets status 4 (`Tipping`). The "corrective" tip of a block that
  hangs half over a hole is status 1 with the angle raised by 25. The dead
  status-4 branch of the tick is modelled as written.

## Model

| member | source | states |
|---|---|---|
| Rolling.Roll | Sample_GL3_2D.cpp:666-694 | the pose a completed roll gives: angle 0, the block moved along the roll axis by half the moved extent plus half the height, y half the extent that becomes the height, the two extents swapped; pinned down by `RollKeepsShape`, `RollMovesOneAxis` and `RollBack` |
| Rolling.StandCell | Sample_GL3_2D.cpp:569-570 | the cell under a standing block: both coordinates doubled and truncated toward zero by the `(int)` casts |
| Rolling.CellA | Sample_GL3_2D.cpp:567-616 | the first footprint cell the check reads: the standing cell, the x-lying cell with x reduced by length/4 (590), or the z-lying cell with z reduced by the literal length/4 (615), each doubled and truncated |
| Rolling.CellB | Sample_GL3_2D.cpp:588-630 | the second footprint cell of a lying block: the neighbour of `CellA` at x + 1 (x-lying) or z + 1 (z-lying) |
| Rolling.ShapedCases | Sample_GL3_2D.cpp:567-613 | a permutation of {0.5, 0.5, 1.0} is exactly one of the three resting shapes, and each shape passes exactly the orientation test (567, 588, 613) that names it |
| Rolling.RollKeepsShape | Sample_GL3_2D.cpp:666-694 | after a completed roll the extents are still a permutation of {0.5, 0.5, 1.0} and the same multiset as before, exactly one orientation test holds, the angle is 0 and y is half the new height |
| Rolling.RollMovesOneAxis | Sample_GL3_2D.cpp:671-694 | a left or right roll keeps z and the breadth, an up or down roll keeps x and the length; the roll keeps the status and the key |
| Rolling.RollBack | Sample_GL3_2D.cpp:671-694 | on a block resting on the floor, R then L (L then R, U then D, D then U) restores position, height and extents exactly |
| Rolling.TwoRightRolls | Sample_GL3_2D.cpp:671-676 | two right rolls from standing lay the block along x, 0.75 further on, and then stand it 1.5 units (three cells) further along +x |
| Rolling.Trunc | Sample_GL3_2D.cpp:569-570 | the int conversion of a double rounds toward zero: the result is the integer at most 1 away on the side of zero |
| Rolling.RollAdvancesFootprint | Sample_GL3_2D.cpp:666-694 | a roll keeps a lattice-aligned block aligned and moves its first footprint cell one step in the roll direction (two for the long side), and the position check reads exactly that cell |
| Rolling.AlignedCellA | Sample_GL3_2D.cpp:567-615 | the cell the position check computes for an aligned block, including the z-lying case that subtracts length/4 (615), is the block's first footprint cell |
| Position.Check | Sample_GL3_2D.cpp:564-631 | the position check's verdict from the kinds of the two footprint tiles: the block's new status, key and angle, whether a fragile tile is cleared, and which bridge is nudged; pinned down by `StandingCheck` and `LyingCheck` |
| Position.StandingCheck | Sample_GL3_2D.cpp:567-587 | standing block: a hole gives status 1, a fragile tile status 3 and clears it, the destination status 5 whatever the tile, kind 4 nudges bridge 1, any other kind leaves the status; nothing else changes |
| Position.LyingCheck | Sample_GL3_2D.cpp:588-630 | lying block: never clears a tile or nudges bridge 1; two holes make it fall; one hole turns the key toward it, adds 25 to the angle and makes it fall; only an x-lying block with a switch of kind 3 first and no hole nudges bridge 0 |
| Position.BreaksOnlyOnFragile | Sample_GL3_2D.cpp:573-576 | a check starts a break only for a standing block on a tile of kind 2 |
| Position.CheckKeepsRestingIffBorne | Sample_GL3_2D.cpp:564-631 | a resting block stays resting exactly when its footprint bears it, and otherwise starts falling, breaking or the target descent |
| Position.CheckKeepsPose | Sample_GL3_2D.cpp:564-631 | the check never moves the block, never changes its extents or destination, and never produces status 4 (`fall_status` code 4) |
| Position.FragileConsumedOnce | Sample_GL3_2D.cpp:571-576 | the block that breaks a fragile tile clears it, and a standing block later checked on the same cell falls instead of breaking |
| Motion.TickBlock | Sample_GL3_2D.cpp:1058-1097 | the block's part of a tick: the descent chain on the status, then the chain on the status it left, with the `hang` it writes; pinned down by `TickNeverRises`, `TickAdvancesAngle`, `DescentIn` and `SettleIn` |
| Motion.TickNeverRises | Sample_GL3_2D.cpp:1058-1097 | a tick never raises the block, never moves it sideways or changes its extents or key; a resting block keeps its height and status; status 4 is never produced; a break neither starts nor ends |
| Motion.TickAdvancesAngle | Sample_GL3_2D.cpp:1058-1096 | a roll in flight on a resting block advances by 10 per tick and sets `hang`; a falling block turns by 20 per tick |
| Motion.DescentIn | Sample_GL3_2D.cpp:1058-1092 | falling, breaking and target-reaching blocks keep their status and sink by 0.5, 0.25 and 0.25 per tick, for any number of ticks |
| Motion.FallCrossesThresholdAfterEight | Sample_GL3_2D.cpp:1058-1100 | a block falling from its resting height 0.5 is at -3 after 7 ticks and below the death line after 8 |
| Motion.SettleIn | Sample_GL3_2D.cpp:1064-1072 | a settling block n steps of 0.05 above its resting height reaches it after n ticks and is resting, with `hang` cleared, one tick later |
| Motion.SpawnSettles | Sample_GL3_2D.cpp:1064-1072 | a freshly spawned block (y = 1.0) reaches y = 0.5 after 10 ticks and rests on the 11th |
| Bridges.Toggle | Sample_GL3_2D.cpp:979-1005 | one call of toggleBridge on a hinge: a rising one gains 5, a falling one loses 5, and the status flips on reaching 90 or 0; pinned down by `ToggleStep`, `RestIsFixed`, `Closes` and `Opens` |
| Bridges.ToggleHang | Sample_GL3_2D.cpp:984-1003 | `hang` after one toggleBridge call: set while the hinge moves, cleared on arrival at 90 or 0, untouched at rest |
| Bridges.ToggledTile | Sample_GL3_2D.cpp:986-1002 | the kind of a cell after one call: on arrival the bridge's two cells become 0 (reaching 90) or 1 (reaching 0); every other cell keeps its kind |
| Bridges.Nudge | Sample_GL3_2D.cpp:582-585 | a nudge turns 0 into 5 and 90 into 85 and leaves any other angle unchanged; from a valid angle it lands strictly inside (0, 90) |
| Bridges.ToggleStep | Sample_GL3_2D.cpp:979-1005 | a valid bridge stays valid, moves by exactly 5 unless at rest, keeps its cells, writes 0 exactly on reaching 90 and 1 exactly on reaching 0, and flips its status exactly on arrival |
| Bridges.RestIsFixed | Sample_GL3_2D.cpp:981-993 | a bridge does not move exactly when it is at 0 rising or at 90 falling, and then the call changes nothing |
| Bridges.Closes | Sample_GL3_2D.cpp:981-992 | a rising bridge n steps below 90 arrives at 90, status false, after exactly n calls, with no earlier arrival |
| Bridges.Opens | Sample_GL3_2D.cpp:993-1004 | a falling bridge n steps above 0 arrives at 0, status true, after exactly n calls, with no earlier arrival |
| Bridges.NudgeCycle | Sample_GL3_2D.cpp:979-1005 | a bridge set up at 5 reaches 90 after 17 calls; nudged there it reaches 0 after 17 more; nudged again it is back in its starting state |
| Levels.TileCount | Sample_GL3_2D.cpp:943-967 | the length passed to initialize is even and at most 400, and is non-zero exactly for levels 1 to 3 |
| Levels.Tiles | Sample_GL3_2D.cpp:941-965 | each level's table of coordinates has the length its initialize call is given |
| Levels.ListedSnoc | Sample_GL3_2D.cpp:932-933 | marking the next pair of the table adds exactly that cell to the marked cells |
| Levels.InitialCell | Sample_GL3_2D.cpp:939-975 | every cell a level loads holds a kind from 0 to 4 |
| Levels.Spawn | Sample_GL3_2D.cpp:944-971 | the doubled spawn position each level gives the block: (3, 5), (4, 10), (4, 4) on levels 1 to 3 |
| Levels.Destination | Sample_GL3_2D.cpp:945-971 | each level's target cell: (6, 9), (3, 4), (3, 8) on levels 1 to 3 |
| Levels.SpawnPairs | Sample_GL3_2D.cpp:941-970 | each level's spawn cell is a pair of its table (pair 2 of level 1, pair 0 of levels 2 and 3) |
| Levels.SpawnListed | Sample_GL3_2D.cpp:939-975 | on every level with data the spawn cell is revealed |
| Levels.SpawnOnSolid | Sample_GL3_2D.cpp:939-975 | on every level with data the block spawns on a plain solid tile, and the destination is a different solid tile |
| Levels.FragileListed | Sample_GL3_2D.cpp:951-956 | every fragile cell of level 2 is in the level's reveal order |
| Levels.SwitchesListed | Sample_GL3_2D.cpp:964-974 | both switches of level 3 are revealed and hold kinds 3 and 4 |
| Levels.BridgeCellsPlain | Sample_GL3_2D.cpp:964-969 | level 3's bridge cells are neither a switch, the spawn cell nor the destination |
| Game.Nudged | Sample_GL3_2D.cpp:580-611 | the nudges of a check change only the bridges' angles |
| Game.CheckKeepsSound | Sample_GL3_2D.cpp:564-631 | the position check keeps the session invariant for a spawned block |
| Game.RollKeepsSound | Sample_GL3_2D.cpp:666-694 | completing the roll of a resting block keeps the session invariant |
| Game.TickKeepsSound | Sample_GL3_2D.cpp:1058-1097 | a tick's block update keeps the session invariant |
| Game.RevealKeepsSound | Sample_GL3_2D.cpp:1036-1041 | revealing one more pair keeps the counter even and within the table, and the next pair lies inside it |
| Game.Spawned | Sample_GL3_2D.cpp:509-516 | createBlock's field set: standing extents (0.5, 0.5, 1.0), y = 1.0, angle 0, status 2, position, key and destination kept |
| Game.Raised | Sample_GL3_2D.cpp:1044-1049 | the bridge set-up: both bridges rising (status true) at angle 5, their cells kept |
| Game.PrepareStep | Sample_GL3_2D.cpp:1034-1050 | the untimed part of a frame on the globals: a block is spawned on a complete board without one, a pair is revealed when due, and the bridges are raised to 5 on a complete board until built (built only on level 3) |
| Game.TickStep | Sample_GL3_2D.cpp:1051-1097 | the timed update on the globals: built bridges take one `Toggle` each, then the block and `hang` follow `TickBlock` with the `hang` the bridges left |
| Game.DeathStep | Sample_GL3_2D.cpp:1100-1119 | the death line on the globals: below y = -3 level 4 quits; a falling, breaking or finished block reloads the same or the next level and starts the run over; anything else is unchanged |
| Game.Frame | Sample_GL3_2D.cpp:1033-1119 | one frame after drawing: `PrepareStep`, `TickStep` when a tick is due, then `DeathStep` |
| Game.FrameLevel | Sample_GL3_2D.cpp:1100-1107 | a frame raises the level by one exactly when a block that reached the target is below the death line after the tick, otherwise keeps it, and quits exactly on level 4 with the block below the line |
| Game.FrameSpawns | Sample_GL3_2D.cpp:1034-1035 | on a complete board without a block the frame spawns one where level_init put it, standing and settling at y = 1.0, or 0.95 after a tick |
| Game.FrameOnlyReveals | Sample_GL3_2D.cpp:1034-1097 | while more than one pair is hidden and no bridge is built, a frame on a resting block with no roll in flight only advances the reveal counter, and only when a reveal is due |
| Game.RestartRespawns | Sample_GL3_2D.cpp:1104-1118 | a restart onto a level with data leaves the block at rest, angle 0, on that level's spawn cell and aimed at its destination, with the level's tile count, nothing revealed, and on level 3 the bridges on their cells |
| Game.Session.constructor | Sample_GL3_2D.cpp:1011-1022 | the session starts on level 1, loaded, consistent, with nothing revealed, no block, no bridges, no roll in flight, and every tile position zero as a global's is |
| Game.Session.Start | Sample_GL3_2D.cpp:1019-1021 | loading level 1 and clearing the counters leaves a consistent session with level 1's board, order and spawn position; the bridges are untouched |
| Game.Session.Outcome | Sample_GL3_2D.cpp:564-631 | the verdict of `Check` on the kinds of the board cells under the block's two footprint cells, computed with the source's truncating casts |
| Game.Session.TileAt | Sample_GL3_2D.cpp:571-591 | a read off the board gives a hole |
| Game.Session.Initialize | Sample_GL3_2D.cpp:922-934 | every cell is 0 except the listed pairs, which are 1; the tile count is n / 2; the reveal order is the table up to n and 0 after it |
| Game.Session.LevelInit | Sample_GL3_2D.cpp:935-978 | levels 1 to 3 load their board, order, spawn and destination (level 3 also places its bridges); any other level changes nothing |
| Game.Session.LoadLevel1 | Sample_GL3_2D.cpp:939-947 | level 1 is loaded: board, reveal order, spawn at (1.5, 2.5) and destination (6, 9) |
| Game.Session.LoadLevel2 | Sample_GL3_2D.cpp:949-960 | level 2 is loaded, with its eight fragile tiles, spawn at (2.0, 5.0) and destination (3, 4) |
| Game.Session.MarkFragile | Sample_GL3_2D.cpp:955-956 | exactly the eight fragile cells become kind 2 |
| Game.Session.LoadLevel3 | Sample_GL3_2D.cpp:962-975 | level 3 is loaded, with its switches, spawn at (2.0, 2.0), destination (3, 8) and the bridge cells (6,4)-(7,4) and (5,8)-(6,8) |
| Game.Session.CreateBlock | Sample_GL3_2D.cpp:509-516 | the spawned block stands (0.5, 0.5, 1.0) at y = 1.0, half a unit above its resting height, settling with angle 0, and the session stays consistent |
| Game.Session.CreateTile | Sample_GL3_2D.cpp:532-534 | the tile (i, j) is placed at (i/2, -0.1, j/2) and no other tile moves |
| Game.Session.CheckBlockPos | Sample_GL3_2D.cpp:564-631 | the block takes the verdict of `Check` on the tiles under its footprint, only a broken fragile tile becomes 0, the requested bridges are nudged, and the session stays consistent |
| Game.Session.CheckStanding | Sample_GL3_2D.cpp:567-587 | the standing rules, applied in source order, carry out `Check` on the state |
| Game.Session.CheckLyingX | Sample_GL3_2D.cpp:588-612 | the x-lying rules carry out `Check` and never touch the board |
| Game.Session.CheckLyingZ | Sample_GL3_2D.cpp:613-630 | the z-lying rules carry out `Check` and touch neither the board nor a bridge |
| Game.Session.MoveBlock | Sample_GL3_2D.cpp:833-834 | nothing changes unless a spawned block outside the block view rests with angle 90 or more; then the block rolls, `hang` clears, and the check's verdict on the rolled block is carried out |
| Game.Session.RollAndCheck | Sample_GL3_2D.cpp:666-696 | the block takes the rolled pose, `hang` clears, and the position check's verdict on the new footprint is carried out |
| Game.Session.CompleteRoll | Sample_GL3_2D.cpp:668-694 | the block becomes `Roll` of the old block and `hang` is cleared |
| Game.Session.ToggleBridge | Sample_GL3_2D.cpp:979-1005 | the bridge takes one step of `Toggle`, `hang` follows it, and only its two cells are rewritten on arrival |
| Game.Session.Tick | Sample_GL3_2D.cpp:1051-1097 | built bridges step, then the block moves as `TickBlock` says; the block never rises, a breaking block's tile sinks by 0.25, and the session stays consistent |
| Game.Session.StepBridges | Sample_GL3_2D.cpp:1053-1057 | both bridges step in order, `hang` threads through both calls, and the board is rewritten as the two steps say |
| Game.Session.Descend | Sample_GL3_2D.cpp:1058-1097 | the block and `hang` become `TickBlock` of the old ones, and only the tile under a breaking block sinks |
| Game.Session.ArrowRelease | Sample_GL3_2D.cpp:270-291 | while `hang` holds, or in the block view, nothing changes; otherwise the key is set and the angle grows by 10 |
| Game.Session.ResolveDeath | Sample_GL3_2D.cpp:1100-1119 | the globals become `DeathStep` of the old ones: below y = -3 level 4 quits and nothing else changes; falling or breaking reloads the level, reaching the target loads the next (level 3 placing its bridge cells); either way the run restarts; anything else changes nothing |
| Game.Session.Restart | Sample_GL3_2D.cpp:1104-1118 | the globals become `DeathStep` of the old ones: the same or the next level is loaded, with level 3's bridge cells and its board, and the block is removed at rest with nothing revealed and no bridges built |
| Game.Session.ClearRun | Sample_GL3_2D.cpp:1108-1118 | the block is at rest with angle 0 and removed, `hang` cleared, the bridges dropped, and the reveal restarts |
| Game.Session.Update | Sample_GL3_2D.cpp:1033-1119 | a frame keeps the session valid and its globals become `Frame` of the old ones; a restart onto a level with data reloads the board and order, and otherwise the board changes only where an arriving bridge rewrites its cells; the revealed pair is placed, and the tile under a breaking block sinks by 0.25 |
| Game.Session.TickAndResolve | Sample_GL3_2D.cpp:1051-1119 | the globals become `DeathStep` of `TickStep` (when a tick is due) of the old ones, the board is reloaded on a restart or rewritten by arriving bridges, and the tile under a breaking block sinks |
| Game.Session.Prepare | Sample_GL3_2D.cpp:1034-1050 | the globals become `PrepareStep` of the old ones, only the revealed pair's tile is placed, and the session stays consistent |
| Game.Session.SpawnIfComplete | Sample_GL3_2D.cpp:1034-1035 | a block is spawned exactly when the board is complete and has none |
| Game.Session.RevealIfDue | Sample_GL3_2D.cpp:1036-1041 | a pair is revealed exactly when one is due and some are hidden, and only its tile moves |
| Game.Session.BuildIfComplete | Sample_GL3_2D.cpp:1042-1050 | on a complete board without built bridges both are raised to 5 and count as built only on level 3; otherwise nothing changes |
| Game.Session.RevealNext | Sample_GL3_2D.cpp:1036-1041 | the next pair of the reveal order is placed as a tile, no other tile moves, and the counter grows by 2 |
| Game.Session.BuildBridges | Sample_GL3_2D.cpp:1042-1050 | both bridges are rising at 5, and they count as built only on level 3 |

## Left out

- Rendering: shaders, vertex arrays, `CreateCuboid`, the draw functions and
  tile colours (535-537). `CreateTile` keeps only the tile's position, and
  `BuildBridges` keeps only the bridges' angle and status.
- The matrix work of `moveBlock` (635-665) and the accumulated
  `rotation_matrix` (670). It is presentation only; rolls are tracked by the
  extents and the key.
- Camera selection and the block-view direction keys (273-285 in block view,
  292-326, 763-824). `ArrowRelease` in the block view leaves the block
  unchanged and does not model the camera direction it sets.
- The mouse's on-screen arrows (346-352). They are a UI hit-test in screen
  coordinates. Unlike the keys, they bypass the `hang` check.
- The wall clock (`glfwGetTime`). `Update` takes `revealDue` and `tickDue`
  instead, saying whether 0.1 s or 0.05 s have passed.
- `quit()` ends the process. The model sets a `quit` flag, and `Update`
  requires it to be false.
- Game.Session.TileAt: in the source, reading a cell off the 14 x 14 board
  is undefined behaviour (no bounds check at 571, 591 or 616). The model
  reads such a cell as a hole.
- Motion.SpawnSettles: it uses exact arithmetic. The source settles in
  steps of 0.05 on doubles (1067-1068). From the spawn height the doubles
  take the same ten steps and the same eleventh tick to rest, but they end at
  0.4999999999999996 rather than 0.5.
- The `NULL` tests on `block.cuboid` and `bridge[0].bridge[0]` become the
  booleans `spawned` and `bridgesBuilt`.
