/**
 * The two collision passes: bullets against enemies (`check_bullet_collide_enemy`)
 * and the player against enemies (`check_player_collide_enemy`).
 */
module Collision {
  import opened Vectors
  import opened Arena
  import opened Entities
  import opened Wrappers

  /**
   * The engine's box-overlap test, `collide(a_pos, a_size, b_pos, b_size).is_some()`,
   * taken as a parameter: positions are box centres, sizes full extents.
   */
  type Collide = (Vec2, Vec2, Vec2, Vec2) -> bool

  /** Every entity's scale is its size on both axes. */
  function Square(s: real): Vec2 {
    Vec2(s, s)
  }

  /** The strict axis-aligned overlap test: both centre distances below the half-extent sums; one possible `collide`. */
  predicate Aabb(aPos: Vec2, aSize: Vec2, bPos: Vec2, bSize: Vec2) {
    && Abs(aPos.x - bPos.x) < (aSize.x + bSize.x) / 2.0
    && Abs(aPos.y - bPos.y) < (aSize.y + bSize.y) / 2.0
  }

  predicate BulletHits(collide: Collide, b: Bullet, e: Enemy) {
    collide(b.pos, Square(BulletSize), e.pos, Square(EnemySize))
  }

  predicate PlayerTouches(collide: Collide, player: Vec2, e: Enemy) {
    collide(player, Square(PlayerSize), e.pos, Square(EnemySize))
  }

  /** Index of the first bullet at or after k that hits the enemy. */
  function FirstHitFrom(bullets: seq<Bullet>, e: Enemy, collide: Collide, k: nat): (r: Option<nat>)
    requires k <= |bullets|
    ensures r.Some? ==> k <= r.value < |bullets| && BulletHits(collide, bullets[r.value], e)
    ensures r.Some? ==> forall j :: k <= j < r.value ==> !BulletHits(collide, bullets[j], e)
    ensures r.None? ==> forall j :: k <= j < |bullets| ==> !BulletHits(collide, bullets[j], e)
    decreases |bullets| - k
  {
    if k == |bullets| then None
    else if BulletHits(collide, bullets[k], e) then Some(k)
    else FirstHitFrom(bullets, e, collide, k + 1)
  }

  /** The inner loop of `check_bullet_collide_enemy`: the first bullet hitting the enemy, where the `break` stops. */
  function FirstHit(bullets: seq<Bullet>, e: Enemy, collide: Collide): (r: Option<nat>)
    ensures r.Some? ==> r.value < |bullets| && BulletHits(collide, bullets[r.value], e)
    ensures r.Some? ==> forall j :: 0 <= j < r.value ==> !BulletHits(collide, bullets[j], e)
    ensures r.None? <==> forall j :: 0 <= j < |bullets| ==> !BulletHits(collide, bullets[j], e)
  {
    FirstHitFrom(bullets, e, collide, 0)
  }

  /** Marks of one bullet pass: despawned bullets, despawned enemies, and the number of increments of the count. */
  datatype ScanResult = ScanResult(bulletDead: seq<bool>, enemyDead: seq<bool>, kills: nat)

  /**
   * `check_bullet_collide_enemy`. Despawns are deferred, so every enemy is tested against
   * the full bullet list: an enemy is destroyed exactly when some bullet hits it; a bullet
   * is despawned exactly when it is the first hitting bullet of some enemy (so one bullet may
   * destroy several enemies); and the count grows by the number of destroyed enemies.
   */
  function BulletEnemyScan(bullets: seq<Bullet>, enemies: seq<Enemy>, collide: Collide): (r: ScanResult)
    ensures |r.bulletDead| == |bullets| && |r.enemyDead| == |enemies|
    ensures forall i :: 0 <= i < |enemies| ==>
      (r.enemyDead[i] <==> exists j :: 0 <= j < |bullets| && BulletHits(collide, bullets[j], enemies[i]))
    ensures forall j :: 0 <= j < |bullets| ==>
      (r.bulletDead[j] <==> exists i :: 0 <= i < |enemies| && FirstHit(bullets, enemies[i], collide) == Some(j))
    ensures r.kills == CountTrue(r.enemyDead)
  {
    if |enemies| == 0 then
      ScanResult(NoneMarked(|bullets|), [], 0)
    else
      var rest := BulletEnemyScan(bullets, enemies[1..], collide);
      var hit := FirstHit(bullets, enemies[0], collide);
      assert forall i :: 1 <= i < |enemies| ==> enemies[1..][i - 1] == enemies[i];
      match hit
      case None =>
        ScanResult(rest.bulletDead, [false] + rest.enemyDead, rest.kills)
      case Some(j) =>
        ScanResult(rest.bulletDead[j := true], [true] + rest.enemyDead, rest.kills + 1)
  }

  /** Because of the `break`, each destroyed enemy takes at most one bullet with it. */
  lemma {:induction false} BulletsDespawnedAtMostKills(bullets: seq<Bullet>, enemies: seq<Enemy>, collide: Collide)
    ensures var r := BulletEnemyScan(bullets, enemies, collide);
      CountTrue(r.bulletDead) <= r.kills <= |enemies|
  {
    if |enemies| > 0 {
      BulletsDespawnedAtMostKills(bullets, enemies[1..], collide);
      var rest := BulletEnemyScan(bullets, enemies[1..], collide);
      match FirstHit(bullets, enemies[0], collide)
      case None =>
      case Some(j) =>
        CountTrueSet(rest.bulletDead, j);
    }
  }

  /** One bullet overlapping two enemies destroys both and scores two. */
  lemma OneBulletTwoEnemies()
    ensures var collide := (a: Vec2, sa: Vec2, b: Vec2, sb: Vec2) => Aabb(a, sa, b, sb);
      var r := BulletEnemyScan([Bullet(Zero, Vec2(0.0, 1.0))], [Enemy(Vec2(5.0, 0.0), Zero), Enemy(Vec2(-5.0, 0.0), Zero)], collide);
      r.kills == 2 && r.bulletDead == [true] && r.enemyDead == [true, true]
  {
    var collide := (a: Vec2, sa: Vec2, b: Vec2, sb: Vec2) => Aabb(a, sa, b, sb);
    var bullets := [Bullet(Zero, Vec2(0.0, 1.0))];
    var e0, e1 := Enemy(Vec2(5.0, 0.0), Zero), Enemy(Vec2(-5.0, 0.0), Zero);
    assert BulletHits(collide, bullets[0], e0) && BulletHits(collide, bullets[0], e1);
    assert [e0, e1][1..] == [e1];
  }

  /**
   * The inner loop of `check_player_collide_enemy`: whether some enemy touches the player.
   * The `break` stops at the first one, so at most one game-over follows.
   */
  function PlayerHitsEnemy(player: Vec2, enemies: seq<Enemy>, collide: Collide): (r: bool)
    ensures r <==> exists i :: 0 <= i < |enemies| && PlayerTouches(collide, player, enemies[i])
  {
    if |enemies| == 0 then false
    else if PlayerTouches(collide, player, enemies[0]) then true
    else
      assert forall i :: 1 <= i < |enemies| ==> enemies[1..][i - 1] == enemies[i];
      PlayerHitsEnemy(player, enemies[1..], collide)
  }
}
