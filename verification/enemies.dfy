/**
 * `spawn_and_move_enemies`: homing with edge-bounce, speed scaled by the kill count,
 * and the timed, capped spawner with its three spawn sites.
 */
module EnemyAi {
  import opened Vectors
  import opened Arena
  import opened Entities
  import opened Wrappers

  /** Seconds the spawn timer must exceed before a spawn is allowed. */
  const SpawnInterval: real := 0.4

  /** Enemies speed up by 8% of the base speed for every destroyed enemy. */
  function SpeedMultiplier(count: nat): (r: real)
    ensures r >= 1.0
    ensures count > 0 ==> r > 1.0
  {
    1.0 + count as real * 0.08
  }

  /** Every destroyed enemy adds the same 0.08 to the multiplier, so more kills always mean faster enemies. */
  lemma SpeedMultiplierPerKill(count: nat, count': nat)
    ensures SpeedMultiplier(count + 1) == SpeedMultiplier(count) + 0.08
    ensures count < count' ==> SpeedMultiplier(count) < SpeedMultiplier(count')
    ensures SpeedMultiplier(0) == 1.0
  {
  }

  /** `gen_rand`: maps a draw from [0, 1) affinely onto [min, max). */
  function GenRand(draw: real, min: real, max: real): (r: real)
    requires 0.0 <= draw < 1.0
    ensures min < max ==> min <= r < max
    ensures draw == 0.0 ==> r == min
  {
    var width := max - min;
    FractionBelow(draw, width);
    draw * width + min
  }

  lemma FractionBelow(draw: real, w: real)
    requires 0.0 <= draw < 1.0
    ensures w > 0.0 ==> 0.0 <= draw * w < w
    ensures draw == 0.0 ==> draw * w == 0.0
  {
    if w > 0.0 {
      assert (1.0 - draw) * w > 0.0;
    }
  }

  /**
   * Where a new enemy appears, from the site draw and the offset draw: the top edge above
   * 0.66, the left edge above 0.33, otherwise the right edge. It starts with no direction.
   */
  function SpawnSite(siteDraw: real, offsetDraw: real, p: Platform): (e: Enemy)
    requires 0.0 <= siteDraw < 1.0 && 0.0 <= offsetDraw < 1.0
    ensures e.dir == Zero
    ensures var b := BoundsOf(p, EnemyKind);
      && (siteDraw > 0.66 ==> e.pos.y == b.top && b.left <= e.pos.x < b.right)
      && (0.33 < siteDraw <= 0.66 ==> e.pos.x == b.left && 0.0 <= e.pos.y < b.top)
      && (siteDraw <= 0.33 ==> e.pos.x == b.right && 0.0 <= e.pos.y < b.top)
  {
    var b := BoundsOf(p, EnemyKind);
    if siteDraw > 0.66 then
      Enemy(Vec2(GenRand(offsetDraw, b.left, b.right), b.top), Zero)
    else if siteDraw > 0.33 then
      Enemy(Vec2(b.left, GenRand(offsetDraw, 0.0, b.top)), Zero)
    else
      Enemy(Vec2(b.right, GenRand(offsetDraw, 0.0, b.top)), Zero)
  }

  /** Every spawn site lies on the edge of the enemy box, in its upper half. */
  lemma SpawnSiteInside(siteDraw: real, offsetDraw: real, p: Platform)
    requires 0.0 <= siteDraw < 1.0 && 0.0 <= offsetDraw < 1.0
    ensures var e, b := SpawnSite(siteDraw, offsetDraw, p), BoundsOf(p, EnemyKind);
      b.Contains(e.pos) && e.pos.y >= 0.0
      && (e.pos.y == b.top || e.pos.x == b.left || e.pos.x == b.right)
  {
  }

  /** Moving along d from c pushes further out of [lo, hi] on that axis. */
  predicate PushesOut(d: real, c: real, lo: real, hi: real) {
    (d > 0.0 && c > hi) || (d < 0.0 && c < lo)
  }

  /**
   * The edge-bounce: an axis is negated exactly when it would carry an enemy that is
   * already past the box further out, so afterwards no axis does; magnitudes are kept.
   */
  function Bounce(d: Vec2, pos: Vec2, p: Platform): (r: Vec2)
    ensures Abs(r.x) == Abs(d.x) && Abs(r.y) == Abs(d.y)
    ensures var b := BoundsOf(p, EnemyKind);
      && !PushesOut(r.x, pos.x, b.left, b.right) && !PushesOut(r.y, pos.y, b.bottom, b.top)
      && (!PushesOut(d.x, pos.x, b.left, b.right) ==> r.x == d.x)
      && (!PushesOut(d.y, pos.y, b.bottom, b.top) ==> r.y == d.y)
  {
    var b := BoundsOf(p, EnemyKind);
    var x := if PushesOut(d.x, pos.x, b.left, b.right) then -d.x else d.x;
    var y := if PushesOut(d.y, pos.y, b.bottom, b.top) then -d.y else d.y;
    Vec2(x, y)
  }

  lemma ProductPositive(a: real, b: real)
    requires a > 0.0 && b > 0.0
    ensures a * b > 0.0
  {
  }

  /** The direction toward the player, before the bounce. */
  function Homing(e: Enemy, player: Vec2, root: real -> real): (d: Vec2)
    requires IsSqrt(root)
    ensures Sign(d.x) == Sign(player.x - e.pos.x) && Sign(d.y) == Sign(player.y - e.pos.y)
    ensures Len2(d) < 1.0
  {
    NormalizeShorterThanUnit(Sub(player, e.pos), root);
    Normalize(Sub(player, e.pos), root)
  }

  /** Distance an enemy covers per unit of direction this frame. */
  function Step(count: nat, dt: real, p: Platform): real {
    InitialEnemySpeedFactor(p) * dt * SpeedMultiplier(count)
  }

  /** One enemy's move: home in on the player, bounce at the edges, advance by the scaled speed. */
  function MoveEnemy(e: Enemy, player: Vec2, count: nat, dt: real, root: real -> real, p: Platform): (r: Enemy)
    requires IsSqrt(root)
    ensures r.dir == Bounce(Homing(e, player, root), e.pos, p)
    ensures Sub(r.pos, e.pos) == Scale(r.dir, Step(count, dt, p))
  {
    var dir := Bounce(Homing(e, player, root), e.pos, p);
    Enemy(Add(e.pos, Scale(dir, Step(count, dt, p))), dir)
  }

  /**
   * With time passing, an enemy moves toward the player on every axis the bounce leaves
   * alone, and never further out of the box on an axis where it is already out.
   */
  lemma {:induction false} MoveEnemyHomes(e: Enemy, player: Vec2, count: nat, dt: real, root: real -> real, p: Platform)
    requires IsSqrt(root) && dt > 0.0
    ensures var r, h, b := MoveEnemy(e, player, count, dt, root, p), Homing(e, player, root), BoundsOf(p, EnemyKind);
      && (!PushesOut(h.x, e.pos.x, b.left, b.right) ==> Sign(r.pos.x - e.pos.x) == Sign(player.x - e.pos.x))
      && (!PushesOut(h.y, e.pos.y, b.bottom, b.top) ==> Sign(r.pos.y - e.pos.y) == Sign(player.y - e.pos.y))
      && (e.pos.x > b.right ==> r.pos.x <= e.pos.x) && (e.pos.x < b.left ==> r.pos.x >= e.pos.x)
      && (e.pos.y > b.top ==> r.pos.y <= e.pos.y) && (e.pos.y < b.bottom ==> r.pos.y >= e.pos.y)
  {
    var r := MoveEnemy(e, player, count, dt, root, p);
    var h := Homing(e, player, root);
    var b := BoundsOf(p, EnemyKind);
    var s := Step(count, dt, p);
    StepPositive(count, dt, p);
    AxisHomes(h.x, e.pos.x, b.left, b.right, r.dir.x, s, player.x - e.pos.x);
    AxisHomes(h.y, e.pos.y, b.bottom, b.top, r.dir.y, s, player.y - e.pos.y);
  }

  lemma StepPositive(count: nat, dt: real, p: Platform)
    requires dt > 0.0
    ensures Step(count, dt, p) > 0.0
  {
    ProductPositive(InitialEnemySpeedFactor(p), dt);
    ProductPositive(InitialEnemySpeedFactor(p) * dt, SpeedMultiplier(count));
  }

  /** One axis of MoveEnemyHomes: h the homing component, d the component after the bounce, s the step. */
  lemma AxisHomes(h: real, c: real, lo: real, hi: real, d: real, s: real, toward: real)
    requires s > 0.0 && lo <= hi && Sign(h) == Sign(toward)
    requires d == (if PushesOut(h, c, lo, hi) then -h else h)
    ensures !PushesOut(h, c, lo, hi) ==> Sign(d * s) == Sign(toward)
    ensures c > hi ==> d * s <= 0.0
    ensures c < lo ==> d * s >= 0.0
  {
    SignScaled(d, s);
  }

  lemma SignScaled(a: real, s: real)
    requires s > 0.0
    ensures Sign(a * s) == Sign(a)
  {
    if a > 0.0 {
      assert a * s > 0.0;
    } else if a < 0.0 {
      assert a * s < 0.0;
    }
  }

  /** With no elapsed time enemies only turn; they do not move. */
  lemma MoveEnemyAtRest(e: Enemy, player: Vec2, count: nat, root: real -> real, p: Platform)
    requires IsSqrt(root)
    ensures MoveEnemy(e, player, count, 0.0, root, p).pos == e.pos
  {
  }

  /** The enemies after this frame's move, the enemy spawned (if any), and the new spawn timer. */
  datatype SpawnPass = SpawnPass(enemies: seq<Enemy>, spawned: Option<Enemy>, timer: real)

  /**
   * `spawn_and_move_enemies`. The timer accumulates dt; exceeding SpawnInterval resets it
   * and allows one spawn, which the population cap may still refuse (the count includes
   * enemies whose despawn is still pending). Every enemy is moved.
   */
  function SpawnAndMoveEnemies(
    enemies: seq<Enemy>, player: Vec2, timer: real, dt: real, count: nat,
    siteDraw: real, offsetDraw: real, root: real -> real, p: Platform): (r: SpawnPass)
    requires IsSqrt(root)
    requires 0.0 <= siteDraw < 1.0 && 0.0 <= offsetDraw < 1.0
    ensures |r.enemies| == |enemies|
    ensures forall i :: 0 <= i < |enemies| ==> r.enemies[i] == MoveEnemy(enemies[i], player, count, dt, root, p)
    ensures r.timer <= SpawnInterval
    ensures timer + dt > SpawnInterval ==> r.timer == 0.0
    ensures timer + dt <= SpawnInterval ==> r.timer == timer + dt
    ensures r.spawned.Some? <==> timer + dt > SpawnInterval && |enemies| < MaxNumberOfEnemies(p)
    ensures r.spawned.Some? ==> r.spawned.value == SpawnSite(siteDraw, offsetDraw, p)
  {
    var elapsed := timer + dt;
    var allowNewSpawn := elapsed > SpawnInterval;
    var timer' := if allowNewSpawn then 0.0 else elapsed;
    var moved := seq(|enemies|, i requires 0 <= i < |enemies| => MoveEnemy(enemies[i], player, count, dt, root, p));
    if |enemies| >= MaxNumberOfEnemies(p) || !allowNewSpawn then
      SpawnPass(moved, None, timer')
    else
      SpawnPass(moved, Some(SpawnSite(siteDraw, offsetDraw, p)), timer')
  }
}
