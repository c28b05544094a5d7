# ld-48 frame logic in Dafny

This project models the tick-driven game logic of the LD48 game "ld-48": a
crawler digs down while enemies climb its walls. The modelled parts are:

- **The game scene** (`GameScene.Game`). Every frame it does two things:
  - It counts the wall tiles the enemies have grabbed in a damage map keyed
    by `"{x}x{y}"`.
  - It tears out every tile counted three times or more. Each torn-out tile
    costs the crawler 10 life.

  While the crawler is moving, the scene also updates the worker and spawns
  a wave of enemies whenever the spawn countdown runs out. The crawler stops
  for good once its life is gone or the worker has lost its body. The
  collision handlers decide what a shot, a wall contact, two colliding
  cannons and a deadly ground contact do.
- **The tile keys** (`TileKeys`). A tile is written into its text key, and
  the destruction scan reads the key back with `split("x")` and `parseInt`.
  Decoding is proved to be the inverse of encoding for every integer pair.
- **The damage map as values** (`TileDamage`). These are the per-frame
  counting fold, the destruction threshold and the settled map the scan
  leaves behind.
- **The enemy** (`Enemies`). It is a state machine
  Falling → Landed → Running → Jumping → Attacking, plus Grabbing, which only
  `grab` enters. It has an attack countdown, hit points, and death when the
  hit points are gone.
- **The cannon** (`Cannons`). It has a cooldown and one left-to-right pass
  over the enemies that keeps a running lowest hit points and a running
  closest distance. The pass is specified by a rule stated without the
  running variables: the target is the last enemy that is at most as strong
  as every earlier enemy and strictly closer than every earlier qualifying
  one.
- **The life bar** (`Lifebars`). Its value is clamped below at 0 and not
  above, and it is drawn red below 30.
- **The worker** (`Players`). It jumps only from the ground, left wins over
  right, and it is damped to a stop when idle. The fire key's press fires a
  three-shot spread.

The pure rules of the scene are in `GameRules`: marker lookup in the object
layer, grid snapping of turrets, the sound variant a roll picks, and the
removal of a destroyed member from a group.

The engine's work comes in as parameters:
- the enemies' and the worker's `blocked.down`;
- distances and positions;
- contacts;
- keyboard state;
- `Math.random()` rolls.

Every JavaScript number is modelled as an exact `real`: frame lengths,
countdowns, velocities and positions. Frame lengths arrive in milliseconds
and are divided by 1000 as in the source.

The enemy's scene-facing members `isAttacking`, `getGrabbedTile`,
`clearGrabbedTile`, `startPartying` and `grab(tile)` come from
`src/scenes/Game.ts`. `src/scenes/game/Enemy.ts` has none of them: it has
only a zero-argument `grab()`. They are modelled as the scene uses them:
- `grab(tile)` enters Grabbing and records the tile;
- `getGrabbedTile` and `clearGrabbedTile` read and clear it;
- `startPartying` sets a flag.

A destroyed enemy (`destroy()` when its hit points are gone) has left the
engine's group. In the model it stays in the scene's sequence with `active`
false, and the counting step skips it.

## Model

| member | source | states |
|---|---|---|
| TileKeys.KeyRoundTrip | src/scenes/Game.ts:314-325 | splitting the key `${x}x${y}` on "x" and parsing both parts gives back (x, y) for every pair of integers, negative ones included |
| TileKeys.KeyInjective | src/scenes/Game.ts:314-316 | two tiles share a damage-map key exactly when they are the same tile |
| TileKeys.SplitJoin | src/scenes/Game.ts:324 | `split` loses nothing: joining its parts with the separator gives the string back, and no part contains the separator |
| TileKeys.ParseIntText | src/scenes/Game.ts:325 | `parseInt` reads the decimal text of every integer back to that integer |
| TileKeys.CanonicalKeyDecodes | src/scenes/Game.ts:324-325 | every key the scene writes decodes to a tile whose key it is |
| TileDamage.AddReportsStep | src/scenes/Game.ts:310-320 | counting one more enemy's report is one step of the fold over the group |
| TileDamage.AddReportsCounts | src/scenes/Game.ts:313-316 | after a frame's reports each tile's count is its old count (absent = 0) plus the number of live enemies that grabbed it |
| TileDamage.AddReportsKeys | src/scenes/Game.ts:310-320 | the map gains exactly the keys of grabbed tiles, and every other entry is unchanged |
| TileDamage.AddReportsWellFormed | src/scenes/Game.ts:310-320 | counting keeps the map holding only scene-written keys with counts of at least 1 |
| TileDamage.Settle | src/scenes/Game.ts:322-330 | after the scan no entry is at 3 or more, entries below 3 stay with their counts, entries at 3 or more are gone, and well-formedness is kept |
| TileDamage.ThirdReportDestroys | src/scenes/Game.ts:310-330 | once a tile's old count plus this frame's grabs reach 3, the same frame removes its key and its wall tile |
| TileDamage.ThreeGrabsOnOneTile | src/scenes/Game.ts:310-330 | three grabs of one undamaged tile in a frame destroy exactly that tile and leave the map empty |
| Lifebars.RepeatedReduce | src/scenes/game/Lifebar.ts:41-47 | n reductions by a non-negative amount equal one reduction by n times the amount, clamped at 0 |
| Lifebars.TenPenaltiesEmptyTheBar | src/scenes/game/Lifebar.ts:41-47 | from 100, ten reductions by 10 reach exactly 0 and further ones keep it at 0 |
| Lifebars.PenaltiesTurnTheBarRed | src/scenes/game/Lifebar.ts:30-34 | from 100, the bar is drawn red exactly from the eighth reduction by 10 on |
| Lifebars.Lifebar.constructor | src/scenes/game/Lifebar.ts:2 | the bar starts at 100 |
| Lifebars.Lifebar.ReduceLife | src/scenes/game/Lifebar.ts:41-47 | the value becomes max(0, value − amount), never negative |
| Lifebars.Lifebar.AddLife | src/scenes/game/Lifebar.ts:49-55 | the value becomes max(0, value + amount), with no cap at 100 |
| Lifebars.Lifebar.GetLife | src/scenes/game/Lifebar.ts:57-59 | returns the value and changes nothing |
| Enemies.Tick | src/scenes/game/Enemy.ts:30-69 | the state only moves forward, by at most one state per frame. Falling lands iff blocked below, Landed runs, and Running counts down by delta/1000 while positive, else jumps. Jumping attacks. Attacking and Grabbing are never left, and Grabbing is never entered. The countdown never rises |
| Enemies.AttackingIsStable | src/scenes/game/Enemy.ts:63-65 | any number of frames leave an attacking enemy attacking with the same countdown |
| Enemies.NoGroundKeepsFalling | src/scenes/game/Enemy.ts:32-41 | an enemy never blocked below keeps falling |
| Enemies.CooldownNeverRises | src/scenes/game/Enemy.ts:48-57 | with non-negative frame lengths the attack countdown never increases over any number of frames |
| Enemies.RunningLeadsToAttack | src/scenes/game/Enemy.ts:48-62 | a running enemy whose countdown is covered by n frames attacks after n + 2 frames |
| Enemies.NewEnemyAttacks | src/scenes/game/Enemy.ts:15-62 | a new enemy on the ground attacks after n + 4 frames once n frames cover its 5-second countdown |
| Enemies.Enemy.constructor | src/scenes/game/Enemy.ts:11-24 | a new enemy is Falling, with 4 hit points, a 5-second attack countdown and a state cooldown of 1 |
| Enemies.Enemy.Update | src/scenes/game/Enemy.ts:30-74 | the state and countdown advance by one Tick. Falling sets vx = −delta, Landed sets vx = delta/2, Jumping orders the leap to (x+100, y−100) and Grabbing stops the body. Running and Attacking leave the velocity and the last leap order alone. The enemy is destroyed exactly when its hit points are ≤ 0, whatever its state |
| Enemies.Enemy.Grab | src/scenes/game/Enemy.ts:76-79 | from any state the enemy becomes Grabbing, holding the grabbed tile; it may change only those two fields |
| Enemies.Enemy.GetHitpoints | src/scenes/game/Enemy.ts:81-83 | returns the hit points |
| Enemies.Enemy.GetHit | src/scenes/game/Enemy.ts:85-87 | subtracts exactly the damage, with no clamp |
| Enemies.Enemy.IsAttacking | src/scenes/Game.ts:289 | true exactly in the Attacking state |
| Enemies.Enemy.GetGrabbedTile | src/scenes/Game.ts:312 | returns the grabbed tile |
| Enemies.Enemy.ClearGrabbedTile | src/scenes/Game.ts:317 | the enemy holds no grabbed tile afterwards |
| Enemies.Enemy.StartPartying | src/scenes/Game.ts:412 | the enemy is partying afterwards |
| Cannons.ScanAllFacts | src/scenes/game/Cannon.ts:42-67 | after the pass, the lowest hit points are the minimum seen (or 10000). The closest position and distance belong to the last qualifying enemy, whose distance is the smallest of the qualifying ones; with none, they are 100000 and nothing |
| Cannons.ScanPicksLastQualifier | src/scenes/game/Cannon.ts:38-67 | the pass picks the last enemy in group order that qualifies, and picks nothing exactly when none qualifies |
| Cannons.FirstEnemyGivesTarget | src/scenes/game/Cannon.ts:38-67 | with a first enemy below 10000 hit points and 100000 distance a target is always chosen |
| Cannons.WeakerLaterEnemyNotChosen | src/scenes/game/Cannon.ts:49-65 | [hp 4 at distance 10, hp 2 at distance 50] picks the first enemy, not the weaker one |
| Cannons.ScanEnemies | src/scenes/game/Cannon.ts:38-67 | the `forEach` loop with its running variables yields the target of the pass |
| Cannons.Cannon.constructor | src/scenes/game/Cannon.ts:5-27 | the head is at (x+4, y+4) and the cooldown starts at 1 |
| Cannons.Cannon.Update | src/scenes/game/Cannon.ts:29-92 | the head follows the tower and the cooldown drops by delta/1000. Once the cooldown is negative and a target is found, the cooldown becomes 0.2 and exactly one shot from the head, aimed at the target + (8, 8) at speed 400, joins the ammo group. Otherwise the cooldown stays as decremented and nothing is fired |
| Common.AmmoGroup.Add | src/scenes/game/Cannon.ts:89 | a shot joins the group after the existing ones |
| Common.AmmoGroup.DestroyAt | src/scenes/Game.ts:300 | a destroyed shot leaves the group and the others keep their order |
| Players.Damp | src/scenes/game/Player.ts:42-47 | an idle frame never increases the speed or flips its sign, and leaves 0 or a speed of at least 0.5 |
| Players.IdleComesToRest | src/scenes/game/Player.ts:42-47 | once n idle frames bring the speed into the dead zone, it is exactly 0 after n frames |
| Players.StaysAtRest | src/scenes/game/Player.ts:42-47 | a worker at rest stays at rest through idle frames |
| Players.SpreadGeometry | src/scenes/game/Player.ts:60-90 | the spread is three shots from the worker, aimed 8 px ahead on its facing side at y−1, y and y+1 |
| Players.Player.constructor | src/scenes/game/Player.ts:9-23 | the worker starts at its position at rest, with a body, shooting into the scene's ammo group |
| Players.Player.Update | src/scenes/game/Player.ts:25-58 | without a body nothing changes. Up on the ground sets vy = −180, otherwise vy is kept. Left sets vx = −100 facing left, even with right held; only right sets vx = 100 facing right; neither damps vx. Only the fire key's press fires the spread |
| Players.Player.FireSpread | src/scenes/game/Player.ts:60-90 | exactly the three spread shots are appended to the ammo group, in loop order |
| Players.Player.Destroy | src/scenes/game/Player.ts:92-95 | the worker has no body afterwards |
| GameRules.FindObjectIsFirst | src/scenes/Game.ts:475-477 | `find` gives the first marker with the name, and nothing exactly when there is none |
| GameRules.NamedIsFilter | src/scenes/Game.ts:350-351 | `filter` keeps exactly the markers with the name, and its first element is what `find` gives |
| GameRules.Snap | src/scenes/Game.ts:464-465 | a snapped coordinate is a multiple of 16, at most v and more than v − 16 |
| GameRules.SnapIsTileEdge | src/scenes/Game.ts:464-465 | snapping is idempotent, and two coordinates snap alike exactly when they are in the same tile |
| GameRules.SoundCueBands | src/scenes/Game.ts:484-503 | for a roll in [0, 1), "crunch" plays crunch, longcrunch or crunch2 on [0, .2), [.2, .5) or [.5, 1), and "clack" plays clack or clack2 on [0, .5) or [.5, 1). Other names play nothing |
| GameRules.Without | src/scenes/Game.ts:279-280 | a destroyed member leaves the group: every occurrence removed, the rest kept with their multiplicities |
| GameScene.SpawnX | src/scenes/Game.ts:355 | a spawned enemy appears in [spawn x, spawn x + 100) |
| GameScene.SpawnWave | src/scenes/Game.ts:350-362 | one fresh Falling enemy with 4 hit points per spawn point, in map order, at its spawn point's band and height |
| GameScene.CameraFocus | src/scenes/Game.ts:442-450 | the focus is the floored "camerafocus" marker, or (0, 0) without one |
| GameScene.PlaceTurrets | src/scenes/Game.ts:456-472 | one fresh cannon per "turret" marker, in map order, at the snapped marker position, sharing the ammo group |
| GameScene.Game.constructor | src/scenes/Game.ts:419-473 | an undamaged map, a full life bar, the worker at the "player" marker, the camera focus, and a cannon on the tile of each turret marker; moving, with the spawn countdown at 1 |
| GameScene.Game.CountGrabs | src/scenes/Game.ts:310-320 | the damage map becomes the fold of the group's reports over the old map, and each live enemy's grabbed tile is cleared |
| GameScene.Game.CountGrab | src/scenes/Game.ts:311-318 | one live enemy's grabbed tile adds one under its key, and the tile is cleared |
| GameScene.Game.DestroyDamagedTiles | src/scenes/Game.ts:322-330 | the map becomes its settled form, and the walls lose the tiles of the doomed keys. `destroyedTiles` rises and the life drops by 10 (clamped), once per doomed key |
| GameScene.Game.DestroyTile | src/scenes/Game.ts:323-329 | one doomed key: its tile leaves the walls, one more tile is destroyed, the life drops by 10 and the key leaves the map |
| GameScene.Game.AdvanceSpawning | src/scenes/Game.ts:348-365 | with a negative countdown it restarts at the spawn rate and a wave is appended; otherwise it drops by delta/1000 and the group is unchanged |
| GameScene.Game.CheckDefeat | src/scenes/Game.ts:397-416 | the crawler stops when its life is gone while moving, or when the worker has no body. Then the worker stops, every enemy parties and no cannon is left; otherwise nothing changes |
| GameScene.Game.TilePhase | src/scenes/Game.ts:310-330 | the counting step and then the scan, keeping the scene invariant; every live enemy's grabbed tile is cleared and the others keep theirs |
| GameScene.Game.MovePhase | src/scenes/Game.ts:342-365 | the worker update and then the spawn step, keeping the scene invariant: the worker's position and body are kept, its velocity and facing take one step of the control rule when it has a body, the spread joins the ammo group exactly when it has a body and the fire key was pressed (otherwise the group is unchanged), and the spawn-countdown cases hold |
| GameScene.Game.RestPhase | src/scenes/Game.ts:342-416 | the moving-only steps and the defeat check, keeping the scene invariant: the worker steers only while moving and with a body, and a defeat in the same frame zeroes its vx; the spread joins the ammo group exactly in a moving frame with a body and a fire press, and otherwise the group is unchanged; enemies keep their party flag while the crawler still moves |
| GameScene.Game.Update | src/scenes/Game.ts:307-417 | keeps the scene invariant, including the settled map. The tile step acts on the counted reports and clears exactly the live enemies' grabbed tiles. Moving stays true only while life is above 0 and the worker has a body, and never returns. Only while moving do the spawn countdown and the worker run: the spawn-countdown cases, one step of the worker's control rule (with vx zeroed on a defeat that frame), and the spread joining the ammo group exactly when the worker has a body and the fire key was pressed (in every other frame the group is unchanged), and cannons and party flags untouched while moving. The worker's position and body are never changed |
| GameScene.Game.AmmoHitsEnemy | src/scenes/Game.ts:296-305 | the shot leaves the group and the enemy loses exactly 1 hit point |
| GameScene.Game.ObjectHitsWall | src/scenes/Game.ts:283-294 | an attacking enemy touching a wall tile grabs that tile; any other contact changes nothing, and only the enemy's state and grabbed tile may change |
| GameScene.Game.DestroyBoth | src/scenes/Game.ts:275-281 | both colliding cannons leave the group |
| GameScene.Game.DestroySprite | src/scenes/Game.ts:255-264 | the first object is destroyed when it is the worker, else the second when it is; the worker loses its body exactly when it is one of the pair, and a contact of two tiles changes nothing |

## Left out

- Asset loading, scene, collider and camera wiring, background scrolling, particles, tweens and sound playback. These are engine and rendering work. `playSound` is kept only as the choice of variant from a roll.
- Boulders. They are cosmetic and driven by `Math.random`.
- The ammo cleanup by `Math.round` of float velocities. It depends on engine physics.
- Engine physics. `moveTo` trajectories, gravity, `blocked.down`, distances and body positions are inputs, or are recorded as the order given (`leap`, `Shot`). `leap` holds the target of the last `moveTo` order issued; the `body.stop()` of a grabbing enemy halts the body but does not withdraw that record.
- Enemies.Enemy.Update: after a leap the body velocity is left unconstrained. `moveTo` sets it towards (x+100, y−100) at 300 px/s, about (212, −212), and that value needs a square root the model does not compute.
- The cannon head's `atan2` rotation. It is floating-point drawing.
- `Lifebar.draw` pixel geometry. Only its colour threshold is modelled.
- `enemyEndsInWheels` / `destroyInWheels` and what a partying enemy does afterwards. Their behaviour is not in the given code.
- The wheels' rotation.
- The order in which the engine runs the group children's own `update`. The enemies' and cannons' updates are separate methods the engine calls between frames.
- `instanceof` tests. Contacts are typed (`Contact`, `Collider`), so the handlers take only the objects they can meet.
- The `!this.player` test. The worker always exists in the model, so only the body test remains.
- A map without a "player" marker. `GameScene.Game.constructor` requires the marker; on such a map the source reads `.x` of an undefined lookup result and throws, and the model has no such failure.
- Floating-point rounding. Divisions such as `vx / 1.3` in the idle damping, `delta / 2` for a landed enemy and the `delta / 1000` countdowns are exact in the model, so rounding effects on velocities, positions and countdowns are not captured.
- Leading whitespace and hexadecimal prefixes in `parseInt`. Scene-written keys never contain them.
- Enemies spawned this frame run their first update only from the next frame. The model does not include the engine adding children mid-frame.
- The enemy's `stateCooldown` is set at construction and never read in the code. It is kept as a field with no behaviour.
- GameScene.Game.Update: does not restate that the new wave is freshly constructed, because the defeat check of the same frame may already have set those enemies partying. The wave is proved fresh and Falling in `GameScene.Game.AdvanceSpawning` and `GameScene.Game.MovePhase`.
- GameScene.Game.CheckDefeat: enemies that already left the engine's group (`active` false) are also set partying; the model cannot observe the difference.
- Lifebars.Lifebar.AddLife: the value is not capped at 100, because the code has no such cap, unlike a [0, 100] range one might expect.
- `src/scenes/game/Decoration.ts`, `src/scenes/game/Shot.ts`, `src/scenes/game/Worker.ts` and `src/config.ts` are not part of this model.
