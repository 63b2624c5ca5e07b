/**
 * The application state machine and one frame of the game: which systems run in
 * each state, in the order the plugin schedules them, with despawns, spawns and the
 * state change applied at the end of the frame.
 */
module Game {
  import opened Vectors
  import opened Arena
  import opened Entities
  import opened Wrappers
  import opened Motion
  import opened Collision
  import opened EnemyAi

  /** Seconds in GameOver after which the game restarts by itself. */
  const RestartDelay: real := 3.0

  /**
   * Everything the gameplay systems read and write: the state, the entities, the
   * `DestroyedEnemyCount` resource, and the `TimeSince` locals of the spawner and the restarter.
   */
  datatype World = World(
    state: AppState,
    player: Option<Vec2>,
    bullets: seq<Bullet>,
    enemies: seq<Enemy>,
    destroyed: nat,
    spawnTimer: real,
    restartTimer: real)

  /**
   * One frame's inputs: elapsed seconds, the movement intent, the firing direction, whether
   * R is held, and the two random draws the spawner would use. The desktop build computes
   * the intent and the direction with Motion.KeyboardMoveIntent and Motion.KeyboardFireDirection,
   * the mobile build with Joystick.TouchMoveIntent and the firing loop of `shoot_bullet`.
   */
  datatype FrameInput = FrameInput(
    dt: real, moveIntent: Vec2, fireDir: Vec2, restartPressed: bool, siteDraw: real, offsetDraw: real)

  datatype Frame = Frame(world: World, events: Events)

  /** The world when the app starts: GameStart, nothing spawned, counters at zero. */
  const Start: World := World(GameStart, None, [], [], 0, 0.0, 0.0)

  predicate ValidInput(i: FrameInput) {
    i.dt >= 0.0 && 0.0 <= i.siteDraw < 1.0 && 0.0 <= i.offsetDraw < 1.0
  }

  /**
   * What holds of every world the game reaches: Paused is never entered; a player exists
   * exactly in InGame and stays in its box; GameStart has no enemies and a zero count; the
   * restart timer only runs in GameOver; the timers stay below their thresholds; the
   * population cap holds.
   */
  ghost predicate Valid(w: World, p: Platform) {
    && w.state != Paused
    && (w.player.Some? <==> w.state == InGame)
    && (w.player.Some? ==> BoundsOf(p, PlayerKind).Contains(w.player.value))
    && (w.state == GameStart ==> w.enemies == [] && w.destroyed == 0)
    && (w.state != GameOver ==> w.restartTimer == 0.0)
    && 0.0 <= w.spawnTimer <= SpawnInterval
    && 0.0 <= w.restartTimer <= RestartDelay
    && |w.enemies| <= MaxNumberOfEnemies(p)
  }

  lemma StartIsValid(p: Platform)
    ensures Valid(Start, p)
  {
  }

  function PlayerSpawnPoint(p: Platform): Vec2 {
    Vec2(0.0, BoundsOf(p, PlayerKind).bottom * 0.9)
  }

  /** `spawn_player`: the player appears inside its box near the bottom, and the game moves to InGame. */
  function SpawnPlayer(w: World, p: Platform): (r: World)
    requires w.state == GameStart
    ensures r.state == InGame
    ensures r.player.Some? && BoundsOf(p, PlayerKind).Contains(r.player.value)
    ensures r.player.value.x == 0.0 && r.player.value.y < 0.0
    ensures r.bullets == w.bullets && r.enemies == w.enemies && r.destroyed == w.destroyed
    ensures r.spawnTimer == w.spawnTimer && r.restartTimer == w.restartTimer
  {
    w.(state := InGame, player := Some(PlayerSpawnPoint(p)))
  }

  /**
   * `game_restarter`: the timer accumulates dt; once it exceeds RestartDelay, or R is held,
   * every enemy is despawned, the count and the timer go to zero and the game returns to
   * GameStart. Otherwise only the timer changes.
   */
  function GameRestarter(w: World, dt: real, restartPressed: bool): (r: World)
    requires w.state == GameOver
    ensures var t := w.restartTimer + dt;
      if t > RestartDelay || restartPressed then
        && r.state == GameStart && r.enemies == [] && r.destroyed == 0 && r.restartTimer == 0.0
        && r.player == w.player && r.bullets == w.bullets && r.spawnTimer == w.spawnTimer
      else
        r == w.(restartTimer := t)
    ensures r.restartTimer <= RestartDelay
  {
    var t := w.restartTimer + dt;
    if t > RestartDelay || restartPressed then
      w.(state := GameStart, enemies := [], destroyed := 0, restartTimer := 0.0)
    else
      w.(restartTimer := t)
  }

  /**
   * One InGame frame. The systems run in the scheduled order: player-enemy collision,
   * firing, bullet motion, player motion, bullet-enemy collision, enemy motion and spawning.
   * Their despawns and spawns are deferred to the end of the frame, so every system sees the
   * entities the frame started with; the state change takes effect from the next frame.
   */
  function InGameFrame(w: World, i: FrameInput, collide: Collide, root: real -> real, p: Platform): (r: Frame)
    requires w.state == InGame && w.player.Some?
    requires ValidInput(i) && IsSqrt(root)
    ensures r.world.state == (if PlayerHitsEnemy(w.player.value, w.enemies, collide) then GameOver else InGame)
    ensures r.world.player.None? <==> r.world.state == GameOver
    ensures r.events.gameOvers == (if r.world.state == GameOver then 1 else 0)
    ensures r.world.player.Some? ==> BoundsOf(p, PlayerKind).Contains(r.world.player.value)
    ensures r.world.destroyed == w.destroyed + r.events.collisions
    ensures r.events.collisions <= |w.enemies|
    ensures |r.world.enemies| + r.events.collisions <= |w.enemies| + 1
    ensures |w.enemies| >= MaxNumberOfEnemies(p) ==> |r.world.enemies| + r.events.collisions <= |w.enemies|
    ensures r.world.restartTimer == w.restartTimer
    ensures r.world.spawnTimer <= SpawnInterval
    ensures w.spawnTimer >= 0.0 ==> r.world.spawnTimer >= 0.0
  {
    var pos := w.player.value;
    // check_player_collide_enemy
    var gameOver := PlayerHitsEnemy(pos, w.enemies, collide);
    // shoot_bullet
    var shot := ShootBullet(pos, i.fireDir);
    // move_bullet
    var bulletPass := MoveBullets(w.bullets, i.dt, p);
    // move_player
    var pos' := MovePlayer(pos, i.moveIntent, i.dt, p);
    // check_bullet_collide_enemy
    var scan := BulletEnemyScan(bulletPass.bullets, w.enemies, collide);
    var destroyed := w.destroyed + scan.kills;
    // spawn_and_move_enemies
    var spawn := SpawnAndMoveEnemies(
      w.enemies, pos', w.spawnTimer, i.dt, destroyed, i.siteDraw, i.offsetDraw, root, p);
    // end of frame: deferred despawns and spawns, then the requested state
    var bullets := Keep(bulletPass.bullets, Either(bulletPass.culled, scan.bulletDead)) + shot.ToSeq();
    var enemies := Keep(spawn.enemies, scan.enemyDead) + spawn.spawned.ToSeq();
    var world := World(
      if gameOver then GameOver else InGame,
      if gameOver then None else Some(pos'),
      bullets, enemies, destroyed, spawn.timer, w.restartTimer);
    Frame(world, Events(scan.kills, if gameOver then 1 else 0))
  }

  /**
   * Despawns are deferred, so a bullet that `move_bullet` culls this frame still takes part
   * in `check_bullet_collide_enemy`: an enemy it overlaps is destroyed and scores.
   */
  lemma CulledBulletStillHits(w: World, i: FrameInput, collide: Collide, root: real -> real, p: Platform, j: nat, k: nat)
    requires w.state == InGame && w.player.Some?
    requires ValidInput(i) && IsSqrt(root)
    requires j < |w.bullets| && k < |w.enemies|
    requires OutOfBounds(w.bullets[j], p) && BulletHits(collide, w.bullets[j], w.enemies[k])
    ensures var r := InGameFrame(w, i, collide, root, p);
      r.events.collisions >= 1 && r.world.destroyed >= w.destroyed + 1
  {
    var bulletPass := MoveBullets(w.bullets, i.dt, p);
    var scan := BulletEnemyScan(bulletPass.bullets, w.enemies, collide);
    assert BulletHits(collide, bulletPass.bullets[j], w.enemies[k]);
    CountTruePositive(scan.enemyDead, k);
  }

  /** One frame: the systems gated on the current state, and nothing at all while Paused. */
  function Tick(w: World, i: FrameInput, collide: Collide, root: real -> real, p: Platform): (r: Frame)
    requires Valid(w, p) && ValidInput(i) && IsSqrt(root)
    ensures Valid(r.world, p)
    ensures w.state == GameStart ==> r.world.state == InGame
    ensures w.state == InGame ==> r.world.state == InGame || r.world.state == GameOver
    ensures w.state == GameOver ==> r.world.state == GameOver || r.world.state == GameStart
    ensures w.state != InGame ==> r.world.bullets == w.bullets && r.world.spawnTimer == w.spawnTimer
    ensures w.state != InGame ==> r.events == NoEvents
    ensures w.state == InGame ==> r.world.destroyed == w.destroyed + r.events.collisions
  {
    match w.state
    case GameStart => Frame(SpawnPlayer(w, p), NoEvents)
    case InGame => InGameFrame(w, i, collide, root, p)
    case GameOver => Frame(GameRestarter(w, i.dt, i.restartPressed), NoEvents)
    case Paused => Frame(w, NoEvents)
  }

  /** The world after a sequence of frames. */
  function Run(w: World, inputs: seq<FrameInput>, collide: Collide, root: real -> real, p: Platform): (r: World)
    requires Valid(w, p) && IsSqrt(root)
    requires forall k :: 0 <= k < |inputs| ==> ValidInput(inputs[k])
    ensures Valid(r, p)
    ensures r.state != Paused
    decreases |inputs|
  {
    if |inputs| == 0 then
      w
    else
      Run(Tick(w, inputs[0], collide, root, p).world, inputs[1..], collide, root, p)
  }
}
