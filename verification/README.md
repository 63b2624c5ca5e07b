# Shoot-'em-up gameplay rules in Dafny

A model of the per-frame gameplay rules of a small 2D arena shooter written as
Bevy systems. The player moves inside a walled arena and fires bullets. Enemies
spawn at the arena edges, home in on the player and speed up with every kill. A
bullet that overlaps an enemy destroys it and scores a point. An enemy that
touches the player ends the game, and the game restarts after three seconds or
when R is pressed.

Each system is a pure step function over an explicit world record:

- `Vectors`: 2D vectors over the reals and `normalize_direction`.
- `Arena`: the wall and boundary constants of the desktop and mobile builds.
- `WallScoreboard`: wall placement and sizes, including the arena assertions.
- `Entities`: bullets, enemies, app states, events, and the end-of-frame removal
  of entities marked for despawning.
- `Motion`: `move_player`, `shoot_bullet` (keyboard branch) and `move_bullet`.
- `Collision`: the bullet-enemy and player-enemy passes.
- `EnemyAi`: `gen_rand`, homing, edge-bounce, speed scaling and the spawner.
- `Joystick`: the mobile build's touch-to-intent loops.
- `Game`: `spawn_player`, `game_restarter`, one InGame frame, state gating,
  and the invariant that every reachable world keeps.

Bevy applies `Commands` at the end of the frame. `Game.InGameFrame` therefore
runs its systems in the scheduled order against the entities the frame started
with. Systems only mark entities for despawning, and the marked entities are
removed at the end of the frame. Spawned entities appear at the end of the frame
too. The requested state takes effect from the next frame. This timing has three
consequences, each stated by the member named:

- A bullet the bullet pass culls this frame can still destroy an enemy in the
  same frame (`Game.CulledBulletStillHits`).
- One bullet can destroy several enemies (`Collision.BulletEnemyScan`,
  `Collision.OneBulletTwoEnemies`).
- The population cap counts enemies that are destroyed in the same frame
  (`Game.InGameFrame`).

Where a plain reading of the game's behaviour and the code differ, the model
follows the code:

- Spawns need the timer to exceed 0.4 s. Both builds use this interval.
- The desktop build uses enemy speed 70 and a cap of 8. The mobile build uses 40
  and 4.
- Every bottom boundary is measured from the pre-bottom wall. On desktop that
  wall coincides with the true bottom wall.
- The restart needs strictly more than 3 s in GameOver.
- Bullets are not despawned on restart. They carry over into the next game.

## Model

| member | source | states |
|---|---|---|
| Vectors.Normalize | src/lib.rs:404-408 | Both axes are divided by the same positive number, the length plus 1e-10: scaling the result back by it recovers the input, so the result is parallel to the input. Each axis keeps its sign, and the result is zero exactly for the zero vector. |
| Vectors.NormalizeShorterThanUnit | src/lib.rs:404-408 | Because 1e-10 is added to the length, a normalised direction is always strictly shorter than one unit over the reals. |
| Vectors.NormalizeNearUnit | src/lib.rs:404-408 | For an input at least one unit long, the normalised squared length exceeds 1 - 2e-10. |
| Arena.WallsOf | src/lib.rs:28-43 | In both builds: left < 0 < right, true bottom <= pre-bottom < 0 < top, and the thickness is 10. On desktop the pre-bottom wall is the true bottom wall. |
| Arena.BoundsOf | src/lib.rs:45-58 | Every PLAYER_/ENEMY_/BULLET_ boundary box is non-degenerate and contains the origin, so the clamps never see min > max. |
| Arena.BoundsNested | src/lib.rs:45-58 | The player box lies inside the enemy box, which lies inside the bullet box. |
| WallScoreboard.Size | src/wall_scoreboard.rs:56-73 | Fails (the assertion) exactly when the arena height or width is not positive. Otherwise, with positive thickness, both components are positive. Side walls are one thickness wide and horizontal walls one thickness high. |
| WallScoreboard.WallLayout | src/wall_scoreboard.rs:43-54 | Left and Right stand at the side-wall coordinates at a common height, halfway between Top and TrueBottom. Top, TrueBottom and PreBottom share the x halfway between the side walls, each at its own y. |
| WallScoreboard.WallsMeetAtCorners | src/wall_scoreboard.rs:43-73 | Side walls reach exactly from the outer face of the bottom wall to the outer face of the top wall. Horizontal walls reach exactly between the outer faces of the side walls. |
| WallScoreboard.ArenaAssertionsHold | src/wall_scoreboard.rs:56-61 | Neither build trips the height/width assertions, and every wall it builds has positive size. |
| Motion.Clamp | src/lib.rs:246-252 | The result lies in [lo, hi] and equals the input whenever the input already does. |
| Motion.ClampIsNearest | src/lib.rs:246-252 | The clamped value is the point of [lo, hi] nearest to the input. |
| Motion.KeyboardMoveIntent | src/lib.rs:225-242 | Each key adds one unit step on its axis. An axis is zero exactly when both or neither of its keys are held, negative (left/down) exactly when only that key is held, and always one of -1, 0, 1. |
| Motion.MovePlayer | src/lib.rs:244-252 | After the move the player lies in the player box. On every axis where the unclamped target (intent * 600 * dt) lies inside the box, the player is exactly at the target. |
| Motion.MovePlayerNearest | src/lib.rs:244-252 | On each axis the moved player is the in-box coordinate nearest to the unclamped target. |
| Motion.MovePlayerAtRest | src/lib.rs:244-252 | With dt = 0 or a zero intent, an in-box player does not move. |
| Motion.KeyboardFireDirection | src/lib.rs:293-304 | The direction is zero exactly when none of F, D, G is held. F sets y = 1, G sets x = 1 and wins over D, and D alone sets x = -1. With neither D nor G, x = 0, so F alone fires straight up. |
| Motion.ShootBullet | src/lib.rs:306-323 | The zero direction fires nothing. Any other direction fires one bullet with that direction, starting half a player size from the player along it. |
| Entities.Keep | src/lib.rs:331-369 | The despawns applied at the end of the frame remove exactly the marked entities: the length drops by the number of marks, every unmarked entity is kept, and nothing else is. |
| Entities.KeepUnmarked | src/lib.rs:331-369 | A frame that marks nothing for despawning leaves the entities exactly as they were. |
| Entities.KeepInOrder | src/lib.rs:331-369 | In the model, despawning keeps order (see Left out): an unmarked entity ends up at its own index minus the number of marked entities before it. |
| Motion.MoveBullets | src/lib.rs:331-342 | A bullet is marked exactly when it is outside one of the four bullet boundaries, and a marked bullet is not moved. Every other bullet advances by direction * 600 * dt. |
| Motion.MoveBulletsSurvivors | src/lib.rs:331-342 | After the marked bullets are removed, every in-bounds bullet survives advanced and no out-of-bounds bullet survives. |
| Motion.MoveBulletsAtRest | src/lib.rs:331-342 | With dt = 0 no bullet changes position. |
| Motion.CulledOnNextPass | src/lib.rs:331-342 | A bullet that an advance takes out of bounds is kept, then marked by the next pass without moving again. |
| Collision.FirstHit | src/lib.rs:353-367 | Returns the first bullet overlapping the enemy: it overlaps, no earlier bullet does, and none is returned only when no bullet overlaps. |
| Collision.BulletEnemyScan | src/lib.rs:352-369 | An enemy is destroyed exactly when some bullet overlaps it. A bullet is despawned exactly when it is some enemy's first overlapping bullet. The count grows by the number of destroyed enemies. |
| Collision.BulletsDespawnedAtMostKills | src/lib.rs:352-369 | Because of the `break`, the despawned bullets are no more than the destroyed enemies, which are no more than the enemies. |
| Game.CulledBulletStillHits | src/lib.rs:331-369 | When a bullet that `move_bullet` culls this frame overlaps an enemy, the frame still scores at least one kill and the count grows. |
| Collision.OneBulletTwoEnemies | src/lib.rs:352-369 | With deferred despawns, a single bullet overlapping two enemies destroys both and scores two. |
| Collision.PlayerHitsEnemy | src/lib.rs:507-522 | Holds exactly when some enemy overlaps the player. |
| EnemyAi.SpeedMultiplier | src/lib.rs:449-456 | The factor 1 + 0.08 * count is at least 1, and above 1 once any enemy is destroyed. |
| EnemyAi.SpeedMultiplierPerKill | src/lib.rs:452 | The factor is 1 with no kills, every kill adds exactly 0.08, and it grows strictly with the count. |
| EnemyAi.GenRand | src/lib.rs:400-402 | A draw in [0, 1) lands in [min, max) whenever min < max, and draw 0 gives min. |
| EnemyAi.SpawnSite | src/lib.rs:465-483 | Draw > 0.66 gives the top edge with x in [left, right). A draw in (0.33, 0.66] gives the left edge with y in [0, top). Otherwise the right edge, with y in [0, top). The new enemy has the zero direction. |
| EnemyAi.SpawnSiteInside | src/lib.rs:465-483 | Every spawn point lies inside the enemy box, on one of its top, left or right edges, at y >= 0. |
| EnemyAi.Homing | src/lib.rs:433-437 | Before the bounce, each axis of an enemy's direction has the sign of (player - enemy) on that axis, and the direction is shorter than one unit. |
| EnemyAi.Bounce | src/lib.rs:439-448 | Magnitudes are kept. An axis is negated only when it would carry an enemy already past that boundary further out, and afterwards no axis does. |
| EnemyAi.MoveEnemy | src/lib.rs:431-457 | The displacement is the bounced homing direction times INITIAL_ENEMY_SPEED_FACTOR * dt * (1 + 0.08 * count). |
| EnemyAi.MoveEnemyHomes | src/lib.rs:431-457 | For dt > 0, an enemy moves toward the player on every axis the bounce leaves alone. On an axis where it is already outside the box, it never moves further out. |
| EnemyAi.MoveEnemyAtRest | src/lib.rs:449-456 | With dt = 0 an enemy turns but does not move. |
| EnemyAi.SpawnAndMoveEnemies | src/lib.rs:422-489 | Every enemy is moved. When the accumulated timer exceeds 0.4 it resets to 0, even if the cap then blocks the spawn. Otherwise it keeps the sum and stays at most 0.4. At most one enemy spawns, and it spawns exactly when the timer fired and fewer than MAX_NUMBER_OF_ENEMIES enemies exist. |
| Game.StartIsValid | src/lib.rs:112-119 | The initial world (GameStart, nothing spawned, counters zero) satisfies the invariant. |
| Game.SpawnPlayer | src/lib.rs:545-590 | GameStart moves to InGame with a player inside its box at x = 0 below the centre. Nothing else changes. |
| Game.GameRestarter | src/lib.rs:534-542 | The timer accumulates dt. When it exceeds 3.0 or R is held: GameStart, no enemies, count 0, timer 0, and bullets kept. Otherwise only the timer changes. The timer never ends above 3.0. |
| Game.InGameFrame | src/lib.rs:131-177 | The next state is GameOver exactly when an enemy overlaps the player at the start of the frame. Then the player is removed and one GameOverEvent is sent; otherwise the player stays in its box and none is sent. The count grows by exactly the number of CollisionBulletEnemyEvents. The cap holds. |
| Game.Tick | src/lib.rs:131-177 | Each state runs only its systems. Valid worlds stay valid. The only transitions are GameStart→InGame (always), InGame→GameOver and GameOver→GameStart. Outside InGame, bullets, the spawn timer and the events are untouched. |
| Game.Run | src/lib.rs:112-177 | Any run of frames from a valid world stays valid, so Paused is never entered. |
| Joystick.JoystickDirection | src/lib.rs:200-224 | With no touch inside the zone the direction is zero. Otherwise it is the normalised offset of the last touch inside the zone, whatever touches outside the zone follow it. |
| Joystick.TouchMoveIntent | src/lib.rs:200-224 | The movement intent is zero when no touch is inside the right joystick's zone. Otherwise it is the normalised offset of the last touch inside that zone. |
| Joystick.TouchFireDirection | src/lib.rs:268-292 | The firing loop with the intended zone check on both axes of the touch's own offset. The direction is zero when no touch is inside the left joystick's zone, and otherwise the normalised offset of the last touch inside it. |
| Joystick.ShootTouchAsWritten | src/lib.rs:268-292 | The firing loop as written. The vertical check reads the direction accepted so far, which is shorter than one unit. |
| Joystick.AsWrittenIgnoresHeight | src/lib.rs:285-288 | As written, a last touch inside the joystick's column sets the firing direction however far above or below the joystick it is. |
| Joystick.TouchAboveJoystickFires | src/lib.rs:285-288 | A touch 500 units above the left joystick fires as written but is ignored by the intended check. |

## Left out

- Rendering, meshes, materials, camera, sprites and scoreboard text are not
  modelled (`setup`, `setup_walls`, `setup_score_board`, `update_scoreboard`,
  `WallBundle`). They are presentation only.
- The audio systems `play_bullet_collide_enemy_sound` and `play_game_over_sound`
  are left out. The model only counts the events they consume. Neither event
  carries a payload, so a frame's events are two counts.
- The screen-to-world transform of touches (camera, window, finger position) is
  left out. Touches enter the model in world coordinates.
- `bevy::sprite::collide_aabb::collide` is a library function and is a parameter
  of the collision passes. `Collision.Aabb` is one instance, used only in an
  example.
- f32 rounding is not modelled; coordinates are reals. The square root is a
  parameter required to be the exact square root on the non-negative reals.
- Vectors.NormalizeShorterThanUnit: over the reals, adding 1e-10 to the length
  makes every normalised vector strictly shorter than one unit. In f32,
  `1.0 + 1e-10` rounds to `1.0`, so (1, 0) normalises to exactly (1, 0). The
  bound is a property of the real-valued model, not of the f32 code.
- `SmallRng` and its entropy seeding are not modelled. The two draws per spawn
  are frame inputs in [0, 1).
- Bevy's scheduler is reduced to the fixed order its `before` constraints give.
  Query iteration order is taken as the order of the entity sequences.
- Entities.KeepInOrder: the source does not fix the query order after a despawn.
  Keeping the surviving entities in their order is a choice of the model, and
  that order decides which bullet `Collision.FirstHit` picks in later frames.
- `DestroyedEnemyCount` is a `nat`. Overflow of the u32 after 2^32 kills is not
  modelled.
- The Paused state is declared but never entered. A Paused frame runs no system.
- The `spawn_things` dummy entity and `src/main.rs` (app bootstrap and window
  size) are not modelled.
- The joystick sprites `spawn_player` adds on mobile are not modelled. They
  take no part in the rules.
- z coordinates are not modelled. Every gameplay entity lies in one plane.

## Findings

| source | as written | input that shows it | evidently intended | confidence | as-written member | corrected member |
|---|---|---|---|---|---|---|
| src/lib.rs:285 | The left-joystick zone check tests `direction.y`, the direction accepted so far (at most one unit long on each axis), so the vertical half never rejects a touch. | Mobile build, one touch at (LEFT_JOYSTICK_X, JOYSTICK_Y + 500), in the play area above the joystick: as written it fires straight up (`Joystick.TouchAboveJoystickFires`). | Test `new_direction.y`, as `move_player` does at src/lib.rs:217, so the touch is ignored. | high; not executed | Joystick.ShootTouchAsWritten | Joystick.TouchFireDirection |
