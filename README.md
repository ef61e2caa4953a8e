# Forest game core, modelled in Dafny

This project models the game logic of a small browser game. The game is set on
a tile map. Tapio, the forest spirit, grows the forest into the floor tiles
around it and spawns enemies on grass.

The model covers these parts of the game:

- **`Grids`** (`grid.dfy`): the row-major `Grid`. It is a flat array addressed
  by `y * xCount + x`. A lookup off the end of a row wraps into the next row.
- **`Maps`** (`map.dfy`): the 30 x 30 `GridMap` of `Block`s (Floor, Grass, Tree, Wall).
  - It keeps three counters: floor, grass, and forest (grass or tree). Each
    counter always equals the true tally of its tiles.
  - The random samplers return the k-th matching tile in row-major order.
  - `CreateMap` carves the level out of solid wall.
- **`Growth`** (`tapio.dfy`): Tapio's update is gated by time.
  - Once a second, it turns the first floor tile that borders forest into grass
    or a tree.
  - Every five seconds, it spawns an enemy on a grass tile.
- **`Characters`** (`character.dfy`): a character's movement step. It updates
  position, facing, the walking flag, and the animation on show. The animation
  always matches the facing and the walking flag.
- **`Levels`** (`level.dfy`): the earlier `Level` prototype.
  - Its arrow-key movement is limited by the area's edges.
  - A rule chooses the block row in which the player is drawn.
- **`Keyboard`** (`controls.dfy`): the four-key control record and its
  key-down, key-up and blur handlers.

Randomness and clocks are parameters of the model:

- `randomInt(count)` is replaced by the index it would draw (`targetIndex`, `spawnIndex`).
- `Math.random()` is replaced by `roll`.
- `performance.now()` is replaced by `clock` or `now`.
- The keyboard record that `getControls()` returns is passed to `Level.Move` as
  its `controls` parameter; the state's `controls` field is that record.

Positions in pixels are `real`.

## Model

| member | source | states |
|---|---|---|
| Grids.Grid.constructor | src/grid.ts:30-34 | the sizes are the arguments, there are `xCount * yCount` cells, and every cell holds the default value |
| Grids.Grid.Get | src/grid.ts:36-38 | absent exactly when the flat offset `y * xCount + x` is outside the array; otherwise the cell at that offset |
| Grids.Grid.GetInBounds | src/grid.ts:36-38 | for `0 <= x < xCount` and `0 <= y < yCount` the lookup finds the cell at offset `y * xCount + x` |
| Grids.InBoundsOffset | src/grid.ts:37 | in-bounds coordinates give an offset inside `[0, xCount * yCount)` |
| Grids.LookupByOffset | src/grid.ts:37 | a lookup depends on the flat offset only |
| Grids.LeftEdgeWraps | src/grid.ts:37 | `get(-1, y)` reads `get(xCount - 1, y - 1)` for `y >= 1`: edge lookups wrap rows |
| Grids.Grid.Set | src/grid.ts:40-42 | the new array is the old one with exactly the cell at `y * xCount + x` replaced, and `get(x, y)` returns the value |
| Grids.LookupAfterWrite | src/grid.ts:40-42 | after a write, every lookup of another offset reads as before |
| Grids.EveryNearby | src/tapio.ts:72-77 | holds exactly when the predicate holds on every on-grid tile of the 3 x 3 block centred on (x, y) |
| Maps.BlockClasses | src/map.ts:46-55 | `isBlocking` holds exactly of a present Wall; `isForest` holds exactly of present Grass or Tree; an absent block is neither; a present block is exactly one of floor, forest or wall |
| Maps.GridMap.constructor | src/map.ts:71-78 | a fresh 30 x 30 map is all Wall, with the walls enclosing it, and its counters are 0, equal to the true tallies |
| Maps.TallyNone | src/map.ts:72-78 | a tally over tiles none of which match is 0 |
| Maps.GridMap.Get | src/grid.ts:36-38 | a map lookup is the row-major lookup into the 900 tiles |
| Maps.GridMap.Set | src/map.ts:80-109 | the write replaces one tile; afterwards the floor, grass and forest counters still equal the true tallies; an interior write keeps the walls around the map |
| Maps.IsBlocking | src/map.ts:46-48 | a tile blocks movement exactly when it is present and a Wall |
| Maps.IsForest | src/map.ts:50-55 | a tile is forest exactly when it is present and is Grass or a Tree; an absent tile is not forest |
| Maps.TallyUpdate | src/map.ts:86-108 | replacing one tile changes a tally by the old tile's class and the new one's, and by nothing else |
| Maps.RecountKeepsTally | src/map.ts:86-108 | the counter update of `set` (up when a tile joins a class, down when it leaves) turns the old tally into the new one |
| Maps.TileWrite | src/map.ts:84 | on the 30 x 30 map a write changes the tile it names and no other |
| Maps.InteriorWriteKeepsEnclosure | src/map.ts:154-256 | a write strictly inside the border keeps the border rows and columns all Wall |
| Maps.GridMap.FindRandom | src/map.ts:129-151 | absent exactly when `targetIndex` is at least the number of matching tiles; otherwise an on-map tile where the predicate holds, with exactly `targetIndex` matching tiles before it in row-major order |
| Maps.GridMap.FindRandomFloor | src/map.ts:111-116 | absent exactly when the index reaches `floorCount`; otherwise an on-map Floor tile, the index-th in row-major order |
| Maps.GridMap.FindRandomGrass | src/map.ts:118-123 | absent exactly when the index reaches `grassCount`; otherwise an on-map Grass tile, the index-th in row-major order |
| Maps.GridMap.FindRandomForest | src/map.ts:125-127 | absent exactly when the index reaches `forestCount`; otherwise an on-map forest tile, the index-th in row-major order |
| Maps.CarveRectangle | src/map.ts:57-69 | every tile in `[xBegin, xEnd) x [yBegin, yEnd)` becomes Floor and every other tile is unchanged; counters stay exact; an interior rectangle keeps the walls |
| Maps.CarveBottomRooms | src/map.ts:157-160 | carving the bottom rooms keeps the counters exact and the border walled |
| Maps.CarveLeftCenterRoom | src/map.ts:162-177 | carving the left-center room and seeding its grass keeps the counters exact and the border walled |
| Maps.CarveTopLeftRoom | src/map.ts:179-187 | carving the top-left room and doorways keeps the counters exact and the border walled |
| Maps.CarveTopRightRoom | src/map.ts:189-204 | carving the top-right room and its northern grass keeps the counters exact and the border walled |
| Maps.SeedEastGrass | src/map.ts:206-215 | seeding the eastern grass strip keeps the counters exact and the border walled |
| Maps.SeedMiddleGrass | src/map.ts:217-230 | seeding the middle grass patch keeps the counters exact and the border walled |
| Maps.CarveBottomRightRoom | src/map.ts:232-244 | carving the right hallway and bottom-right room keeps the counters exact and the border walled |
| Maps.SeedBottomRightGrass | src/map.ts:246-254 | seeding the bottom-right grass keeps the counters exact and the border walled |
| Maps.CreateMap | src/map.ts:154-259 | rows 0 and 29 and column 0 are Wall; column 29 is Wall except the exit tiles (29, 26) and (29, 27), which are Floor; the counters equal the tallies |
| Growth.SiteScanIsFirst | src/tapio.ts:29-53 | the scan returns an on-grid Floor tile with forest left, right, above or below, and no such tile comes before it; it returns nothing only when no such tile is left |
| Growth.FindNewPosition | src/tapio.ts:29-53 | the nested loop returns the first such tile in row-major order, or nothing when there is none |
| Growth.ExpansionTarget | src/tapio.ts:68 | the tile written is the first growth site in row-major order when there is one, and Tapio's own position otherwise |
| Growth.GrowthBlock | src/tapio.ts:70-79 | a Tree stamped with the clock exactly when the roll is below 0.6 and every on-grid tile around the target is neither Wall nor Tree; Grass otherwise; forest either way |
| Growth.TreeHasClearance | src/tapio.ts:70-79 | where a tree is planted, no tile of its 3 x 3 neighbourhood on the grid is a Wall or a Tree |
| Growth.GrowthShiftsCounts | src/tapio.ts:68-84 | growing into a floor tile raises the forest tally by one and lowers the floor tally by one |
| Growth.GrowthKeepsForest | src/tapio.ts:81-84 | writing a forest block never lowers the forest tally |
| Growth.Scene.constructor | src/tapio.ts:65 | a scene over a given tile map starts with no added characters |
| Growth.Scene.Add | src/tapio.ts:94 | adding appends exactly the (character, tile) pair |
| Growth.Tapio.constructor | src/tapio.ts:55-62 | Tapio starts at the given tile with both timers at 0 |
| Growth.Tapio.Expand | src/tapio.ts:67-87 | only when `now - lastExpandTime > 1000`: exactly the target tile is written with the growth block and the timer becomes `now`; a found site moves one tile from floor to forest; otherwise nothing changes |
| Growth.Tapio.Spawn | src/tapio.ts:89-98 | only when `now - lastSpawnTime > 5000`: the timer becomes `now`; when the drawn index is below `grassCount`, exactly one fresh enemy is appended, on the index-th Grass tile; otherwise no character is added |
| Growth.Tapio.Update | src/tapio.ts:64-99 | both gates as above, in one frame: at most one tile written, at most one enemy added, the map's counters stay exact and the forest never shrinks |
| Characters.SelectAnimation | src/character.ts:48-62 | left and right show the west sprites, up the north sprites, down the south sprites; the walk flag chooses walking over standing |
| Characters.SelectAnimationSame | src/character.ts:48-62 | two choices give the same sprites exactly when the walk flags agree and the directions are equal or both horizontal |
| Characters.StepDirection | src/character.ts:100-108 | a vertical step faces up or down by its sign, overriding the horizontal one; otherwise a horizontal step faces left or right; no step keeps the facing |
| Characters.Character.constructor | src/character.ts:75-91 | a new character stands at (0, 0) facing down, not walking, not an enemy, with the south-standing animation |
| Characters.Character.Move | src/character.ts:93-119 | the position moves by (dx, dy); the facing is the step's direction; the walking flag is whether the step is non-zero; the animation restarts exactly when facing or walking changes; the animation keeps matching the state |
| Levels.GameObject.constructor | src/player.ts:36-47 | the player starts at (0, 0), with the width and height it is given (in the source, the image width and half the image height) |
| Levels.AxisStepChoices | src/level.ts:82-98 | per axis at most one step of `SPEED * dt`; the step towards the lower edge wins; no key means no move |
| Levels.NoStepPastLowerEdge | src/level.ts:82-83 | an object already left of (or above) the area never steps further out |
| Levels.NoStepPastUpperEdge | src/level.ts:84-89 | an object whose far side is past the right (or bottom) edge never steps further out |
| Levels.StepKeepsWithinOneStep | src/level.ts:82-98 | an object within one step of the area stays within one step of it |
| Levels.Level.Move | src/level.ts:79-99 | each axis moves independently by the axis rule with step `SPEED * dt` (`SPEED` = 0.1), horizontal by left/right and vertical by up/down |
| Levels.LayoutOffsetsMatch | src/level.ts:54-68 | the flat offsets of the layout are exactly the offsets of its eleven block cells |
| Levels.LayoutLookup | src/level.ts:54-68 | in the laid-out grid, every on-grid lookup reads whether the cell is one of the eleven block cells |
| Levels.PlaceScatteredBlocks | src/level.ts:54-63 | sets exactly the seven single and paired block cells and keeps the rest |
| Levels.PlaceCornerBlocks | src/level.ts:65-68 | sets exactly the four cells of the corner block and keeps the rest |
| Levels.Level.constructor | src/level.ts:37-69 | the area is 400 x 300 at the origin; the block grid is 8 x 6 with exactly the layout cells set; the player starts at (200, 200) |
| Levels.DrawRowsDisjoint | src/level.ts:141-146 | no bottom edge lies in two rows |
| Levels.DrawRowExists | src/level.ts:141-146 | a bottom edge in `[25, rows * 50 + 25)` lies in one of the rows |
| Levels.Level.PlayerDrawRows | src/level.ts:114-148 | the player is drawn in row `gridY` exactly when `gridY * 50 + 25 <= bottom < gridY * 50 + 75`; at most once per frame; exactly once when the bottom edge is in `[25, 325)` for the 6 rows |
| Keyboard.KeyOf | src/controls.ts:39 | a code is recognised exactly when it is one of the four arrow-key codes |
| Keyboard.KeyOfCodeOf | src/controls.ts:24-25 | every key's code is recognised as that key |
| Keyboard.WithKey | src/controls.ts:40 | sets one key's flag and leaves the other three unchanged |
| Keyboard.CreateControls | src/controls.ts:29-34 | all four keys released |
| Keyboard.AfterKeyDown | src/controls.ts:38-42 | a known code presses its key; every other key is unchanged |
| Keyboard.AfterKeyUp | src/controls.ts:44-48 | a known code releases its key; every other key is unchanged |
| Keyboard.UnknownCodeIgnored | src/controls.ts:38-48 | a code that is not an arrow key changes nothing on key-down or key-up |
| Keyboard.KeyDownIdempotent | src/controls.ts:38-42 | repeating a key-down changes nothing |
| Keyboard.KeyDownThenUp | src/controls.ts:38-48 | key-down then key-up of a code equals key-up alone |
| Keyboard.ControlState.constructor | src/controls.ts:36 | the record starts with all keys released |
| Keyboard.ControlState.OnKeyDown | src/controls.ts:38-42 | the record becomes the key-down update of the old record |
| Keyboard.ControlState.OnKeyUp | src/controls.ts:44-48 | the record becomes the key-up update of the old record |
| Keyboard.ControlState.OnBlur | src/controls.ts:53-55 | the record is replaced with all keys released |

## Left out

- Drawing is not modelled: every `draw` method, the canvas transforms, sprites, easing and the rising animation. Of `Level.draw` only the row condition is modelled.
- `src/game.ts` is not part of this model (animation-frame loop, `dt` clamp). Neither are the graphics and item files; of `src/player.ts` only the player's starting position and size are modelled, by `Levels.GameObject`.
- The browser wiring is not modelled: `initializeControls` listener registration and `waitForAnyKey`.
- The scene, camera, animations, area and game-object modules are not part of this model. The scene is reduced to its tile map and the list of characters it was asked to add.
- `everyNearby` is not defined in `src/grid.ts`. It is modelled as: the predicate holds on the tile itself and on each of its up to eight neighbours that lie on the grid. This is an assumption.
- Growth.GrowthBlock: the tree's time is the `clock` parameter, a stand-in for `performance.now()`. The grass block also carries a time in the source; the model drops it, because nothing reads it.
- Maps.GridMap.Set and Grids.Grid.Set require the flat offset to be inside the array. An out-of-range write in the source grows the JavaScript array, and that growth is not modelled.
- Maps.GridMap.FindRandom takes the drawn index as a parameter. `randomInt` (`src/utils.ts`) is not part of this model, so its uniform choice is not modelled. The contract covers every index, including those at or above the count.
- Maps.CreateMap calls the same carves and writes as the source, in the source's order, split over eight helper methods (the `Carve…` and `Seed…` rows).
- Maps.CreateMap states the border, the exit and exact counters, not the full interior layout.
- Maps.CarveBottomRooms states only that the counters stay exact and the border stays walled, not which tiles it carves.
- Maps.CarveLeftCenterRoom states only that the counters stay exact and the border stays walled, not which tiles it carves or seeds with grass.
- Maps.CarveTopLeftRoom states only that the counters stay exact and the border stays walled, not which tiles it carves.
- Maps.CarveTopRightRoom states only that the counters stay exact and the border stays walled, not which tiles it carves or seeds with grass.
- Maps.SeedEastGrass states only that the counters stay exact and the border stays walled, not which tiles it seeds with grass.
- Maps.SeedMiddleGrass states only that the counters stay exact and the border stays walled, not which tiles it seeds with grass.
- Maps.CarveBottomRightRoom states only that the counters stay exact and the border stays walled, not which tiles it carves or seeds with grass.
- Maps.SeedBottomRightGrass states only that the counters stay exact and the border stays walled, not which tiles it seeds with grass.
- Growth.Tapio.Expand: when no growth site exists, the source writes at Tapio's own position whatever stands there. The model does the same. The floor and forest counters are then stated only through the tallies, since that tile may be a wall, a tree, grass, or a floor tile with no forest beside it. Only in that case, and only when an expansion is due, does the model require Tapio's position to lie inside the 30 x 30 map, since the source would otherwise grow its tile array. Growth.Tapio.Update carries the same requirement.
- Growth.Tapio.Spawn: the enemy's `Character` is created with the `clock` parameter as its start time. Spawn legality and collisions are not in the shown code.
- Floating-point rounding is not modelled. Positions, `SPEED * dt`, the collision size (`50 * 0.6`) and times are exact reals.
- Level's `blocks` grid is built without a default in the source, so unset cells read `undefined`. The model fills them with `false`; both are falsy where the source tests a cell.
- Keyboard.KeyOf: the source tests `code in controls`, which also accepts inherited property names such as `toString`. Keyboard event codes are never such names, so only the four arrow codes are recognised.
- Characters.Character.Move takes the clock reading `now` for the restarted animation in place of `performance.now()`. The character's own `startTime` is a constructor parameter.
