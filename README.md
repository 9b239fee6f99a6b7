# Island boss game: the per-frame simulation

This project models the core of a small browser canvas game, `game.js`. The player walks a
top-down island map, picks up a weapon and hits a stationary boss until its hp reaches 0.
The core has four parts:

- **Map generation** (`generateIslandMap`). Nested loops, x outer and y inner, push one
  32x32 tile per grid square of the 800x600 canvas. That makes 25 columns and 19 rows (the
  last row starts at y = 576). A tile is classified by the distance of its top-left corner
  from the centre (400, 300). Below 250 it is grass, or a tree when a random draw is below
  0.1 and the distance is over 80. Below 280 it is sand. Anything else is water.
- **Tile lookup** (`getTileAt`). It floor-divides the point by the tile size and returns the
  first tile in the list with that origin, if there is one.
- **Position validity** (`isValidPosition`). The box must be inside the canvas. Each of its
  four corners must not lie on a water or tree tile. A corner with no tile does not block.
- **One frame** (`updatePlayer`). Nothing happens once the game is won. Otherwise:
  - The held keys give a candidate position. Both coordinates are taken if it is valid, and
    neither otherwise.
  - An unarmed player within distance 30 of the uncollected weapon takes it.
  - An armed player within distance 60 of a boss with hp above 0 deals 10 damage (hp is
    clamped at 0), if more than 500 ms have passed since the last hit.
  - The game is won in the frame where hp reaches 0.

The model has six modules:

- `Wrappers`: the `Option` type, for a lookup that finds a tile or nothing.
- `TileMap`: tiles, the generated map as a function of the random source, lookup.
- `Collision`: validity as a predicate, plus a method with the corner loop.
- `Simulation`: the frame as a function `Step` on a `State` value, and lemmas about one
  frame and about runs of frames.
- `Spawn`: what happens from the starting record on the generated map.
- `Game`: the game record as objects updated in place. The class `GameState` holds
  `Player`, `Weapon` and `Boss` objects, the win flag and the tile list. Its methods are
  proved to produce the state `Step` and `IslandMap` prescribe.

Modelling choices:

- The random source is a parameter `coin: nat -> bool`. `coin(k)` says whether the k-th
  call returned a number below 0.1. The source draws exactly once for each tile inside the
  grass radius, because the random test is evaluated before the distance test.
  `DrawsBefore(i)` counts the draws made before tile `i`.
- The clock is a parameter `now`, read once per frame.
- Every `Math.sqrt(d) < r` becomes `d < r * r` on integer squared distances. All reachable
  coordinates are integers: the starts are 100 and 500, the speed is 3 and tile origins are
  multiples of 32. So `int` replaces the JavaScript numbers exactly.
- The key map becomes a `Keys` record of the eight key names the frame reads. A key that was
  never pressed reads as false.
- Calls to the page (`updateWeaponStatus`, `updateBossHp`, `showGameMessage`) become
  `Event` values. A frame returns them in the order it sends them.

A consequence of the code as written, proved in module `Spawn`: the player starts at
(100, 500). That point lies in the tile with origin (96, 480). Its squared distance from the
centre is 124816, beyond the sand radius (78400), so that tile is water whatever the random
source gives. The starting position is therefore itself invalid (`Spawn.SpawnInvalid`). The top-left corner of every candidate position one frame can ask for lies in
the same tile. So no frame ever moves the player. On the generated map the weapon is never
picked up, the boss is never hit and the game is never won, whatever the keys and the clock.

The model follows `game.js` as written:

- Movement takes both coordinates or neither. There is no per-axis sliding.
- A point outside the grid has no tile, and no tile does not block. Only the canvas bounds
  reject a position.
- The game's progress is one `gameWon` flag. There is no start, playing or won phase.
- Nothing clears the ground around the spawn point, the weapon or the boss.

## Model

| member | source | states |
|---|---|---|
| TileMap.GetTileAt | game.js:196-203 | the tile found is in the list and is a grid-aligned tile whose square contains the point, and no earlier entry covers the point; nothing is found exactly when no tile in the list covers the point |
| TileMap.Find | game.js:200-202 | `find` returns the first tile with the given origin, with no earlier match; it returns nothing exactly when no tile has that origin |
| TileMap.TerrainFor | game.js:69-79 | reference definition of a tile's terrain: water exactly at distance >= 280, sand exactly for 250 <= distance < 280, tree exactly for 80 < distance < 250 with a draw below 0.1, grass for the rest of the grass radius; IslandBands and ClassifyTile are stated in its terms |
| TileMap.IslandTile | game.js:64-83 | reference definition of the i-th pushed tile: it covers its own grid origin, it is water exactly beyond the sand radius, and outside the grass radius the draw plays no part; NextTile and IslandBands are about it |
| TileMap.IslandMap | game.js:62-88 | reference definition of the generated list: 475 entries, entry i being IslandTile(coin, i) on the grid square with origin (OriginX(i), OriginY(i)); GenerateIslandMap is proved to build it, and IslandMapShape, ColumnMajor, OriginsUnique, OriginCovered, IslandBands and GetTileAtIsland are about it |
| TileMap.IslandMapShape | game.js:64-65 | the generated map has 25 x 19 = 475 tiles; tile i has origin (32 * (i / 19), 32 * (i % 19)), a multiple of 32 inside the canvas columns and rows |
| TileMap.ColumnMajor | game.js:64-65 | a later tile has a larger x, or the same x and a larger y: column-major order |
| TileMap.OriginsUnique | game.js:64-85 | no two generated tiles share an origin |
| TileMap.IslandUniqueOrigins | game.js:64-85 | the whole generated list has unique origins |
| TileMap.OriginCovered | game.js:64-85 | every grid square (col < 25, row < 19) has its tile, at index col * 19 + row |
| TileMap.IslandBands | game.js:66-79 | water exactly at distance >= 280; sand exactly for 250 <= distance < 280; tree exactly for 80 < distance < 250 with a draw below 0.1; grass only below 250 |
| TileMap.WaterBeyondSand | game.js:70-79 | a tile at or beyond distance 280 is water for every random outcome |
| TileMap.DrawsDistinct | game.js:71-74 | two tiles inside the grass radius consult different random draws, in generation order |
| TileMap.GetTileAtIsland | game.js:196-203 | on the generated map a point in column < 25 and row < 19 finds the tile at index col * 19 + row; any other point finds nothing |
| Collision.ValidPosition | game.js:171-193 | reference definition of a valid position: a valid box lies inside the 800 x 600 canvas and none of its four corners is on a water or tree tile; IsValidPosition, OutOfCanvasInvalid and ValidIffCornersOnLand are about it |
| Collision.IsValidPosition | game.js:171-193 | the bounds check and the loop over the four corners return true exactly when the box is valid |
| Collision.OutOfCanvasInvalid | game.js:173-175 | x < 0, y < 0, x + size > 800 or y + size > 600 makes the position invalid whatever the tiles |
| Collision.ValidIffCornersOnLand | game.js:178-192 | with unique origins, an in-canvas box is valid exactly when every tile covering one of its corners is sand or grass, so a corner with no tile passes |
| Collision.CoveringTileUnique | game.js:196-203 | with unique origins, the tile lookup returns the only tile covering the point |
| Collision.RightEdgeNeverBlocks | game.js:186-187 | on the generated map a corner at x = 800 has no tile and never blocks |
| Simulation.Moved | game.js:113-134 | reference definition of the movement stage: only the position changes; it becomes the full candidate when the candidate is valid, and any move ends at a valid position |
| Simulation.PickedUp | game.js:136-148 | reference definition of the pickup stage: only the two flags change, they change exactly when pickup is possible, and then both become true |
| Simulation.Hit | game.js:150-165 | reference definition of the combat stage: only hp, lastHit and the win flag change; an accepted hit sets hp to max(0, hp - 10) and lastHit to now, nothing changes otherwise; hp never rises or drops below 0; the game is won exactly when it was or the hit takes hp to 0 |
| Simulation.Step | game.js:110-168 | reference definition of one frame, used by UpdatePlayer and by every one-frame and run lemma: a won state is left alone with no notification; hp never rises; lastHit stays or becomes now; the weapon and win flags are never cleared; at most three notifications |
| Simulation.WonIsTerminal | game.js:111 | once won, a frame changes nothing and sends nothing |
| Simulation.StepMovement | game.js:113-134 | the player ends at the full candidate exactly when it is valid and otherwise stays put; each coordinate moves by at most 3, and not at all when opposite keys are both held or both released |
| Simulation.StepPreservesValidity | game.js:130-134 | a frame that starts at a valid position ends at one |
| Simulation.StepPickup | game.js:136-148 | pickup (with its notification) happens exactly for an uncollected weapon, an unarmed player and squared distance < 900 after the move; it sets both flags; neither flag is ever cleared |
| Simulation.StepCombat | game.js:150-160 | a hit is accepted only when armed, hp > 0, squared distance < 3600 and now - lastHit > 500; it sets hp to max(0, hp - 10) and lastHit to now, and sends the hp notification; otherwise neither changes; hp never rises and never goes below 0 |
| Simulation.StepVictory | game.js:162-165 | the win flag is set exactly in the frame whose accepted hit takes hp to 0, together with the victory message |
| Simulation.InitialInv | game.js:13-38 | the starting record satisfies the invariant: hasWeapon == collected, 0 <= hp <= 100, hp a multiple of 10, won exactly when hp is 0, won only when armed |
| Simulation.StepPreservesInv | game.js:110-168 | every frame preserves that invariant |
| Simulation.HitsSpaced | game.js:157-159 | in any run each accepted hit comes more than 500 ms after the previous one, the first more than 500 ms after the starting lastHit |
| Simulation.RunLastHit | game.js:159 | a run ends with lastHit equal to the time of its last accepted hit, or the starting value if there was none |
| Simulation.HitsCount | game.js:151-165 | under the invariant, final hp is the starting hp minus 10 per accepted hit, and the game is won exactly when hp is 0 |
| Simulation.TenHitsWin | game.js:32-33 | from hp 100 a run has at most 10 accepted hits and is won exactly when it has 10 |
| Simulation.WonRunFrozen | game.js:111 | from a won state every run leaves the state unchanged and sends nothing |
| Simulation.NotifiedOnce | game.js:137-148 | in any run the weapon notification is sent at most once (never once collected) and the victory message at most once (never once won) |
| Spawn.SpawnCandidatesInvalid | game.js:14-15 | on the generated map no candidate position reachable from the start (100, 500) in one frame is valid |
| Spawn.SpawnInvalid | game.js:14-15 | on the generated map the starting position (100, 500) is itself not a valid position |
| Spawn.SpawnTileWater | game.js:66-79 | the lookup of every point of the grid square with origin (96, 480) finds tile 72, which is water, so the point blocks |
| Spawn.SpawnStuck | game.js:110-168 | the first frame from the starting record leaves it unchanged and sends nothing, for every key set, clock and random outcome |
| Spawn.NeverWon | game.js:10-40 | every run from the starting record on the generated map ends unchanged and sends nothing, so the game is never won |
| Game.Player.constructor | game.js:13-20 | the player starts at (100, 500) without the weapon |
| Game.Weapon.constructor | game.js:21-27 | the weapon starts uncollected |
| Game.Boss.constructor | game.js:28-36 | the boss starts with hp 100 and lastHit 0 |
| Game.GameState.constructor | game.js:10-40 | the new record holds the starting values and an empty tile list |
| Game.GameState.GenerateIslandMap | game.js:62-88 | the nested loops append exactly IslandMap(coin) to the tile list |
| Game.GameState.ClassifyTile | game.js:66-79 | the loop body's terrain is TerrainFor of the distance and the current draw, and it uses up one draw exactly inside the grass radius |
| Game.GameState.UpdatePlayer | game.js:110-168 | the objects after the frame, and the notifications sent, are those of Step on the state before it; the tile list is unchanged |
| Game.GameState.MovePlayer | game.js:113-134 | the player's position afterwards is that of Moved |
| Game.GameState.CheckWeaponPickup | game.js:136-148 | the flags afterwards are those of PickedUp, with the weapon notification exactly when pickup happens |
| Game.GameState.CheckBossCombat | game.js:150-167 | hp, lastHit and the win flag afterwards are those of Hit, with the hp notification and, when hp reaches 0, the victory message |

## Left out

- Rendering (`render`, `drawMap`, `drawPlayer`, `drawWeapon`, `drawBoss`, `drawHealthBar`,
  game.js:206-334): canvas drawing calls. The health-bar fraction is floating point.
- Page updates (`updateWeaponStatus`, `updateBossHp`, `showGameMessage`, game.js:337-362):
  each is modelled only as the `Event` the frame emits. The text and styles they set are
  left out.
- Key handling (`setupEventListeners`, game.js:91-107), `init` (game.js:43-59), the
  `requestAnimationFrame` loop and the load hook (game.js:365-372): I/O and scheduling. The
  key map is an input `Keys` value. How keydown and keyup events fill it is not modelled.
- The `canvas`, `ctx` and `color` fields: only rendering reads them.
- The weapon and boss sizes (16 and 48) and the boss's `maxHp`: no frame reads them. The
  sizes are read only by rendering; `maxHp` by rendering and by `updateBossHp`
  (game.js:352-354), which is modelled only as its `Event`. They are kept as `size` and
  `maxHp` constants of the `Weapon` and `Boss` classes.
- Game.GameState.UpdatePlayer: the clock is read once per frame. The source reads it twice,
  at game.js:157 and 159. If the clock advanced between the two reads, the source's lastHit
  would be the later reading.
- Game.GameState.UpdatePlayer: the three commented sections of `updatePlayer` (movement,
  pickup, combat) are three methods it calls in order, instead of one body. The effect on
  the objects is the same.
- JavaScript numbers are doubles. The model uses unbounded integers, which agree because
  every value involved is a small integer, apart from the clock readings. Those stay below
  2^53.
