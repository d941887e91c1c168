# Tumbling-block puzzle: rule engine model

This project models the game logic of a 3D tumbling-block puzzle. A 1×0.5×0.5 block is rolled one 90° tumble at a time across a 10×10 board of typed tiles. Each tile is void (0), floor (1), fragile (2), bridge (3), switch (4) or goal (6). The player must stand the block upright on the goal on each of three fixed levels without falling through a void tile or breaking a fragile one.

Everything is stated in **quarter units**. Extents of 0.5 and 1 are 2 and 4. The block's centre and the ±0.25 vertical correction are integers. The source's values are all multiples of 0.25, so this is exact and no floating point is involved. The source's float-to-int cast of a grid coordinate truncates toward zero, and `TruncHalf` models that truncation explicitly.

Modules, leaves first:

- `TileGrid`: the three level tables, the tile codes, and the world-to-grid mapping `(int)((x+2.5)/0.5)`, `(int)((-z+2.5)/0.5)`. The board is indexed `board[x][z]`. An index off the board reads as Void.
- `TumbleTransform`: the block `Pose` (extents, centre, and the persistent correction sign `base_check`) and one tumble. `Tumble` is written once, parameterised by axis and sign. It is proved equal to each of the four hand-written copies, which are also modelled one by one with the source's three-step swap arithmetic.
- `RuleEngine`: the footprint cells, the standing and lying landing rules as a `Verdict`, the switch toggle, and the per-direction copies of the rules.
- `GameSession`: the whole game state as a value. It defines the key press, one frame (`Tick`), level reset, the main loop's end checks, the invariant every reachable state keeps, and scenarios on level 1.
- `BlockGame`: class `Game`, the state as the program keeps it. It has the `board` array, the block fields and the session globals. `LoadBoard` copies a table with nested loops; `Press`, `Tick`, `Commit` and `ResetLevel` update fields in place. Each method is proved to produce exactly the `GameSession` function's new state.

Behaviours of the code worth knowing, all kept by the model:

- A standing landing on a bridge (code 3) matches none of the branches at lines 1112-1146, so `no_of_moves` is not incremented (`StandingRuleOutcomes`).
- From the level-1 spawn, a right tumble leaves the block lying along x on `board_1[6][5]` and `board_1[7][5]`, which are both void (code 0), so the game is lost with one move counted. A left tumble lands on two floor cells (`Level1LeftIsSafe`, `Level1RightIsLost`).
- At level 4, `createBoard` copies nothing, so the board keeps the third table (`BoardFor`).
- `base_check` is not reset when a level is cleared. The model keeps it; the invariant shows it is already +1 then.

The model departs from the code in two places, on purpose:

- A direction is accepted only when no tumble is under way and the game is still being played (`GameSession.Accepts`). The source's key handler always overwrites `rotate_check` and restarts `rotate` at 0, even in the middle of a tumble, which drops the interrupted tumble's landing check. It also keeps accepting keys for up to a second after a loss or a win, until the main loop checks `game_check` and `level`.
- The landing rule used by `GameSession.Commit` and `GameSession.Tick`, and so by the `Game` class, is the corrected lying rule `LyingRule`. In the right tumble's branch for a block lying along z, line 1354 reads `if` where it should read `else if`. As written, a void landing there is counted twice, and it flips the switch when the other cell is a switch. This is recorded under "## Findings" and modelled as written by `LyingRightAlongZAsWritten`.

## Model

| member | source | states |
|---|---|---|
| `TileGrid.Table` | GLFW/Sample_GL3_2D.cpp:926-943 | level 1, 2 or 3 selects `board_1`, `board_2` or `board_3`, and the table chosen is a well-formed 10×10 table of tile codes |
| `TileGrid.LevelsWellFormed` | GLFW/Sample_GL3_2D.cpp:236-278 | every entry of the three level tables is one of the codes 0, 1, 2, 3, 4, 6, and each table is 10×10 |
| `TileGrid.TileAt` | GLFW/Sample_GL3_2D.cpp:1111 | the tile read at a computed index; an index outside 0..9 reads as Void instead of outside the array |
| `TileGrid.ColumnOf` | GLFW/Sample_GL3_2D.cpp:1109 | the column index is exact on tile centres, lies in 0..9 exactly for x in [-2.5, 2.5), and, since the cast truncates, maps x in (-3, -2.5) to column 0 as well |
| `TileGrid.RowOf` | GLFW/Sample_GL3_2D.cpp:1110 | the row index is exact on tile centres, lies in 0..9 exactly for z in (-2.5, 2.5], and maps z in (2.5, 3) to row 0 as well |
| `TileGrid.TruncHalf` | GLFW/Sample_GL3_2D.cpp:1109-1110 | the float-to-int conversion of `(w+2.5)/0.5` truncates toward zero: it is the floor for non-negative values and the ceiling for negative ones, and exact on even numerators |
| `TileGrid.GridMappingInverts` | GLFW/Sample_GL3_2D.cpp:953 | the index computation inverts the placement of tile (i, j) at world (-2.5+0.5i, 2.5-0.5j) |
| `TumbleTransform.Code` | GLFW/Sample_GL3_2D.cpp:301-319 | each arrow key stores a distinct non-zero code in `rotate_check`: left -1, right 1, up 2, down -2 |
| `TumbleTransform.DirOf` | GLFW/Sample_GL3_2D.cpp:1093-1660 | the four commit branches are selected by `rotate_check`; `DirOf` inverts `Code` |
| `TumbleTransform.Spawn` | GLFW/Sample_GL3_2D.cpp:1814 | the block is created standing (0.5, 1, 0.5) at the origin |
| `TumbleTransform.SpawnValid` | GLFW/Sample_GL3_2D.cpp:964 | the spawn pose with `base_check = 1` satisfies the pose invariant |
| `TumbleTransform.Tumble` | GLFW/Sample_GL3_2D.cpp:1093-1106 | a tumble only permutes the three extents, and afterwards `base_check` is -1 exactly when the new height is not 1 |
| `TumbleTransform.LeftAsWritten` | GLFW/Sample_GL3_2D.cpp:1093-1106 | the left copy's three-step arithmetic exchanges length and height, keeps width, and leaves z alone |
| `TumbleTransform.RightAsWritten` | GLFW/Sample_GL3_2D.cpp:1237-1254 | the right copy exchanges length and height, keeps width, and leaves z alone |
| `TumbleTransform.UpAsWritten` | GLFW/Sample_GL3_2D.cpp:1383-1400 | the up copy exchanges width and height, keeps length, and leaves x alone |
| `TumbleTransform.DownAsWritten` | GLFW/Sample_GL3_2D.cpp:1524-1539 | the down copy exchanges width and height, keeps length, and leaves x alone |
| `TumbleTransform.TumbleAgreesWithCopies` | GLFW/Sample_GL3_2D.cpp:1093-1546 | the single parameterised tumble equals each of the four hand-written copies (left, right, up, down), including the three-step `h=l-h; l=l-h; h=h+l` swap, on every pose |
| `TumbleTransform.TumbleGeometry` | GLFW/Sample_GL3_2D.cpp:1094-1100 | left/right swap length and height and keep width; up/down swap width and height and keep length; the centre moves along the tumble axis by ∓ or ±(old extent/2 + old height/2), the other horizontal coordinate is unchanged; y moves by -0.25·`base_check` only when the two swapped extents differ |
| `TumbleTransform.TumblePreservesValid` | GLFW/Sample_GL3_2D.cpp:1096-1104 | after any tumble the block still has two extents 0.5 and one 1, its base stays on the floor plane y = -0.5, `base_check` stays in step with the height, and the centre stays on the cell grid |
| `TumbleTransform.TumbleOrientation` | GLFW/Sample_GL3_2D.cpp:1093-1100 | standing, the block falls to lie along the tumble axis; lying along it, it stands up; lying across it, it rolls and keeps lying the same way |
| `TumbleTransform.TumbleRoundTrip` | GLFW/Sample_GL3_2D.cpp:1093-1546 | tumbling in a direction and then in the opposite direction restores extents, centre and `base_check` exactly |
| `RuleEngine.Footprint` | GLFW/Sample_GL3_2D.cpp:1107-1197 | a standing block (height 1) is checked on exactly one cell, the centre's own; otherwise two cells are checked |
| `RuleEngine.FootprintExact` | GLFW/Sample_GL3_2D.cpp:1150-1197 | on a valid pose the truncating casts are exact: the standing cell is centred under the block, and the two lying cells are neighbours along the long axis, 0.25 either side of the centre |
| `RuleEngine.StandingRule` | GLFW/Sample_GL3_2D.cpp:1107-1146 | a standing landing never both loses and clears, loses and flips, or clears and flips |
| `RuleEngine.StandingRuleOutcomes` | GLFW/Sample_GL3_2D.cpp:1107-1146 | standing: lost iff the tile is 0 or 2; cleared iff it is 6; the switch flips iff it is 4; counted iff the tile is 0, 1, 2, 4 or 6; a bridge changes nothing at all |
| `RuleEngine.LyingRule` | GLFW/Sample_GL3_2D.cpp:1148-1191 | a lying landing is always counted once, never clears and never both loses and flips |
| `RuleEngine.LyingRuleOutcomes` | GLFW/Sample_GL3_2D.cpp:1148-1191 | lying: lost iff a cell is void, or no cell is a switch and exactly one is fragile; the switch flips iff no cell is void and some cell is a switch |
| `RuleEngine.FragilePairing` | GLFW/Sample_GL3_2D.cpp:1175-1188 | two fragile cells carry a lying block; fragile next to floor does not |
| `RuleEngine.FragileProduct` | GLFW/Sample_GL3_2D.cpp:1177-1179 | in the fragile branch `c1*c2 == 4` holds iff both cells are fragile |
| `RuleEngine.LyingRuleSymmetric` | GLFW/Sample_GL3_2D.cpp:1152-1156 | the order of the two footprint cells does not matter |
| `RuleEngine.GoalRequiresStanding` | GLFW/Sample_GL3_2D.cpp:1122-1132 | only a standing landing on the goal clears a level; no lying landing does |
| `RuleEngine.LandCounted` | GLFW/Sample_GL3_2D.cpp:1107-1191 | a landing of a valid pose is counted at most once, and is not counted exactly when the block stands on a bridge; it clears only standing on a goal |
| `RuleEngine.Toggle` | GLFW/Sample_GL3_2D.cpp:1168-1171 | the switch goes 0→1 and 1→0, and any other value is left alone |
| `RuleEngine.ToggleInvolution` | GLFW/Sample_GL3_2D.cpp:1135-1138 | two flips restore the switch, and a flip of 0 or 1 yields the other one |
| `RuleEngine.DoubleSwitchFlipsOnce` | GLFW/Sample_GL3_2D.cpp:1166-1174 | two switch cells under a lying block flip the switch once, so its value changes |
| `RuleEngine.Land` | GLFW/Sample_GL3_2D.cpp:1107-1191 | a landing is counted at most once, never both loses and flips the switch, and clears the level only when the block stands on a goal cell |
| `RuleEngine.StandingFloorFirst` | GLFW/Sample_GL3_2D.cpp:1255-1293 | the standing rule of the right and up copies, which test floor before switch, gives the same verdict as the switch-first order, on every tile code |
| `RuleEngine.LyingRightAlongZAsWritten` | GLFW/Sample_GL3_2D.cpp:1339-1379 | as written: without a void cell it agrees with the corrected lying rule; with one it loses and counts the move twice; it flips the switch iff some cell is a switch, void or not |
| `RuleEngine.LandAsWritten` | GLFW/Sample_GL3_2D.cpp:1107-1660 | the landing as each direction's copy evaluates it counts at most two moves, two only for a right tumble of a block lying along z, and clears only standing on a goal cell |
| `RuleEngine.LandAgreesWithCopies` | GLFW/Sample_GL3_2D.cpp:1107-1660 | the single landing rule agrees with all four direction copies (which test switch and floor in different orders) except, and only except, a right tumble leaving the block lying along z on a void cell |
| `RuleEngine.RightAlongZDoubleCount` | GLFW/Sample_GL3_2D.cpp:1343-1379 | as written, the right tumble's width branch counts a void landing twice and may flip the switch of a lost game; the corrected rule counts it once |
| `GameSession.BoardFor` | GLFW/Sample_GL3_2D.cpp:926-943 | the board a level plays on is a well-formed table; past level 3 it stays the third table, since `createBoard` then copies nothing |
| `GameSession.Press` | GLFW/Sample_GL3_2D.cpp:301-319 | an accepted key sets `rotate_check` to the key's code and `rotate` to 0 and changes nothing else; a refused key changes nothing |
| `GameSession.Apply` | GLFW/Sample_GL3_2D.cpp:1112-1191 | a verdict adds its count to `no_of_moves`, a loss sets `game_check` to -1 and keeps the level, a clear sets it to 1 and increments `level`, a switch verdict flips a 0/1 `switch_check`; board, pose and animation are untouched |
| `GameSession.Commit` | GLFW/Sample_GL3_2D.cpp:1090-1660 | for a direction code, the block takes the tumbled pose, the animation returns to idle, the board is kept and the move count grows by the landing's count; otherwise nothing changes |
| `GameSession.Reset` | GLFW/Sample_GL3_2D.cpp:1664-1676 | the board is reloaded for the current level, the block respawns as (0.5, 1, 0.5) at the origin, `rotate_check`, `rotate`, `game_check` and `switch_check` become 0, and moves and level are kept |
| `GameSession.Tick` | GLFW/Sample_GL3_2D.cpp:1086-1676 | an animating frame only adds 10 to `rotate`; an idle frame with no cleared level changes nothing; a committing frame returns to idle |
| `GameSession.OutcomeOf` | GLFW/Sample_GL3_2D.cpp:1867-1880 | the main loop ends the game as lost iff `game_check == -1`, and as won iff it is not lost and `level == 4` |
| `GameSession.Init` | GLFW/Sample_GL3_2D.cpp:226-233 | the game starts playing on level 1's table |
| `GameSession.InitInv` | GLFW/Sample_GL3_2D.cpp:1814-1816 | the start state satisfies the session invariant |
| `GameSession.PressStartsTumble` | GLFW/Sample_GL3_2D.cpp:301-319 | an accepted key starts a tumble from angle 0 with the key's code; a key while tumbling or after the game ended changes nothing |
| `GameSession.PressPreservesInv` | GLFW/Sample_GL3_2D.cpp:301-319 | a key press keeps the session invariant |
| `GameSession.AnimationFrame` | GLFW/Sample_GL3_2D.cpp:1086-1089 | while a tumble is under way below 90°, a frame adds 10 to `rotate` and changes nothing else |
| `GameSession.AnimateFrames` | GLFW/Sample_GL3_2D.cpp:1086-1089 | k such frames add 10·k and change nothing else |
| `GameSession.TumbleTakesTenFrames` | GLFW/Sample_GL3_2D.cpp:1086-1106 | after a key press, nine frames turn the block to 90° and the tenth commits the tumble |
| `GameSession.CommitReturnsToIdle` | GLFW/Sample_GL3_2D.cpp:1105-1106 | the committing frame resets `rotate_check` and `rotate` to 0 and gives the block the tumbled pose |
| `GameSession.CommitFollowsVerdict` | GLFW/Sample_GL3_2D.cpp:1107-1191 | the committing frame updates `no_of_moves`, `switch_check`, `game_check` and `level` exactly as the landing verdict says; on a loss the switch is unchanged and the block keeps the tumbled pose |
| `GameSession.GoalAdvancesLevel` | GLFW/Sample_GL3_2D.cpp:1664-1676 | after a goal landing the level goes up by one, the board is reloaded entrywise from the new level's table, the block respawns standing at the origin, switch, tumble and `game_check` are 0, and the game is won iff level 3 was cleared |
| `GameSession.TickPreservesInv` | GLFW/Sample_GL3_2D.cpp:1086-1676 | every frame keeps the session invariant: legal shape, flush base, grid-aligned centre, angle 0..90 in steps of 10, switch in {0, 1}, board equal to the current level's table, idle once the game has ended |
| `GameSession.MovesMonotone` | GLFW/Sample_GL3_2D.cpp:1086-1676 | `no_of_moves` never decreases, and a frame adds at most one move |
| `GameSession.TerminalIsFinal` | GLFW/Sample_GL3_2D.cpp:1867-1880 | a lost or won game is final: neither a key nor a frame changes it |
| `GameSession.SwitchTwiceRestores` | GLFW/Sample_GL3_2D.cpp:1135-1138 | two switch landings restore `switch_check` |
| `GameSession.Level1LeftIsSafe` | GLFW/Sample_GL3_2D.cpp:1093-1191 | from the start, a left tumble lands on two floor cells: one move, still playing on level 1, lying along x at centre (-0.75, -0.25, 0) |
| `GameSession.Level1RightIsLost` | GLFW/Sample_GL3_2D.cpp:1237-1338 | from the start, a right tumble leaves the block on cells (7, 5) and (6, 5), both void in `board_1`: the game is lost with one move counted |
| `BlockGame.Game.constructor` | GLFW/Sample_GL3_2D.cpp:1814-1816 | the constructed game is exactly the start state, with level 1's table copied into a fresh board |
| `BlockGame.Game.LoadBoard` | GLFW/Sample_GL3_2D.cpp:922-943 | the nested loops copy the level's table into the board entry by entry; outside levels 1..3 the board is untouched |
| `BlockGame.Game.Press` | GLFW/Sample_GL3_2D.cpp:301-319 | the key handler updates the fields exactly as `GameSession.Press`, keeping the invariant |
| `BlockGame.Game.ReadCell` | GLFW/Sample_GL3_2D.cpp:1111 | reading a board cell gives the tile at that index, and Void off the board |
| `BlockGame.Game.Classify` | GLFW/Sample_GL3_2D.cpp:1107-1191 | the verdict computed from the board array is the rule engine's verdict for the current pose |
| `BlockGame.Game.Place` | GLFW/Sample_GL3_2D.cpp:1094-1106 | the block's fields take the tumbled pose and the animation returns to idle; nothing else changes |
| `BlockGame.Game.Score` | GLFW/Sample_GL3_2D.cpp:1112-1145 | the counters are updated as the verdict says; nothing else changes |
| `BlockGame.Game.Commit` | GLFW/Sample_GL3_2D.cpp:1090-1660 | the end of a tumble changes the fields exactly as `GameSession.Commit` |
| `BlockGame.Game.ResetLevel` | GLFW/Sample_GL3_2D.cpp:1664-1676 | the level reset changes board and fields exactly as `GameSession.Reset` |
| `BlockGame.Game.Tick` | GLFW/Sample_GL3_2D.cpp:1086-1676 | one frame changes board and fields exactly as `GameSession.Tick` and keeps the invariant |
| `BlockGame.Game.Finished` | GLFW/Sample_GL3_2D.cpp:1867-1880 | the main loop's checks report lost iff the game is lost and won iff it is won |
| `BlockGame.PlayLeftOnce` | GLFW/Sample_GL3_2D.cpp:1093-1191 | driving the class with one left key and ten frames yields one move and no loss |

## Left out

- Rendering is not modelled. That covers OpenGL/GLFW/GLAD calls, shaders, vertex and colour buffers, `createPiece` and `createblock` buffers, the MVP matrices, and the per-direction animated drawing in `draw`. These are foreign library calls with no game rule in them.
- The bridge tile's drawing depends on the switch flag. It has no effect on play, so it is not modelled.
- Camera keys (`v_eye`), mouse callbacks and the sample triangle/rectangle variables are user-interface state unrelated to the rules.
- Audio (`system("play …")`) and every `printf` of scores are process and console output.
- Frame pacing with `glfwGetTime` is not modelled. The main loop's end checks run at most once a second; the model evaluates them on demand (`OutcomeOf`, `Game.Finished`).
- `GameSession.Press`, `BlockGame.Game.Press`: these are deliberately stricter than the source's key handler. The handler overwrites an in-flight tumble, and it still accepts keys in a lost or won game until the main loop notices. The model rejects all of these, so every tumble is evaluated to completion.
- `GameSession.Tick`, `GameSession.Commit`, `BlockGame.Game.Tick`, `BlockGame.Game.Commit`, `GameSession.MovesMonotone`, `GameSession.TickPreservesInv`: these run the corrected line-1354 rule described under "## Findings", not the code as written. In the source, a right tumble of a block lying along z onto a void cell adds 2 to `no_of_moves`, so "a frame adds at most one move" holds only for the corrected game. The as-written rule is `RuleEngine.LyingRightAlongZAsWritten`.
- `TileGrid.TileAt`: an index outside 0..9 is undefined behaviour in the source, since it reads outside `board`. The model reads such an index as Void. On reachable states the truncating casts are exact (`FootprintExact`), so such an index really means the footprint is off the board.
- The source's lengths and centre are floats. The model uses exact quarter units. Every value the game produces is a multiple of 0.25 within a small range, so these floats are exact.
- Malformed level data is not checked at run time. The source performs no such check; instead, the three tables are proved well formed (`LevelsWellFormed`).

## Findings

| source | as written | input that shows it | evidently intended | confidence | as-written member | corrected member |
|---|---|---|---|---|---|---|
| GLFW/Sample_GL3_2D.cpp:1354 | in the right tumble's `width==1` branch, the switch test follows the void test with `if` instead of `else if` | block lying along z, tumbled right onto a void cell and a floor cell (`LyingRightAlongZAsWritten(0, 1)`): `no_of_moves` grows by 2; with void and switch (0, 4) the switch of a lost game also flips | `else if`, as in the other seven lying branches: a void landing is counted once and flips nothing | not executed; high (the seven sibling copies use `else if`) | `RuleEngine.RightAlongZDoubleCount` | `RuleEngine.LyingRuleOutcomes` |
