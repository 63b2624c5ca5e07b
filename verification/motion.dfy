/**
 * Player motion (`move_player`), firing (`shoot_bullet`) and bullet motion
 * (`move_bullet`), as pure steps over one frame.
 */
module Motion {
  import opened Vectors
  import opened Arena
  import opened Entities
  import opened Wrappers

  /** `f32::clamp`; the source's bounds always satisfy lo <= hi (see Arena.BoundsOf). */
  function Clamp(v: real, lo: real, hi: real): (r: real)
    requires lo <= hi
    ensures lo <= r <= hi
    ensures lo <= v <= hi ==> r == v
  {
    if v < lo then lo else if v > hi then hi else v
  }

  /** The clamped value is the point of [lo, hi] nearest to the unclamped one. */
  lemma ClampIsNearest(v: real, lo: real, hi: real, z: real)
    requires lo <= hi && lo <= z <= hi
    ensures Abs(Clamp(v, lo, hi) - v) <= Abs(z - v)
  {
  }

  /** Arrow keys to a movement intent: each pressed key adds a unit step on its axis. */
  function KeyboardMoveIntent(left: bool, right: bool, up: bool, down: bool): (r: Vec2)
    ensures r.x == 0.0 <==> left == right
    ensures r.x < 0.0 <==> left && !right
    ensures r.y == 0.0 <==> up == down
    ensures r.y > 0.0 <==> up && !down
    ensures r.x in {-1.0, 0.0, 1.0} && r.y in {-1.0, 0.0, 1.0}
  {
    var x := (if left then -1.0 else 0.0) + (if right then 1.0 else 0.0);
    var y := (if up then 1.0 else 0.0) + (if down then -1.0 else 0.0);
    Vec2(x, y)
  }

  /** Where `move_player` would put the player before clamping. */
  function PlayerTarget(pos: Vec2, intent: Vec2, dt: real): Vec2 {
    Add(pos, Scale(intent, PlayerSpeed * dt))
  }

  /**
   * `move_player`: advance by intent * 600 * dt, then clamp each axis into the player box.
   * The result is always inside the box, and it is the unclamped target on every axis
   * where that target is already inside.
   */
  function MovePlayer(pos: Vec2, intent: Vec2, dt: real, p: Platform): (r: Vec2)
    ensures BoundsOf(p, PlayerKind).Contains(r)
    ensures var t, b := PlayerTarget(pos, intent, dt), BoundsOf(p, PlayerKind);
      (b.left <= t.x <= b.right ==> r.x == t.x) && (b.bottom <= t.y <= b.top ==> r.y == t.y)
  {
    var b := BoundsOf(p, PlayerKind);
    var t := PlayerTarget(pos, intent, dt);
    Vec2(Clamp(t.x, b.left, b.right), Clamp(t.y, b.bottom, b.top))
  }

  /** Each axis of the moved player is the in-box coordinate nearest to the unclamped target. */
  lemma MovePlayerNearest(pos: Vec2, intent: Vec2, dt: real, p: Platform, z: Vec2)
    requires BoundsOf(p, PlayerKind).Contains(z)
    ensures var r, t := MovePlayer(pos, intent, dt, p), PlayerTarget(pos, intent, dt);
      Abs(r.x - t.x) <= Abs(z.x - t.x) && Abs(r.y - t.y) <= Abs(z.y - t.y)
  {
    var b := BoundsOf(p, PlayerKind);
    var t := PlayerTarget(pos, intent, dt);
    ClampIsNearest(t.x, b.left, b.right, z.x);
    ClampIsNearest(t.y, b.bottom, b.top, z.y);
  }

  /** With no elapsed time or no intent, a player inside the box stays where it is. */
  lemma MovePlayerAtRest(pos: Vec2, intent: Vec2, dt: real, p: Platform)
    requires BoundsOf(p, PlayerKind).Contains(pos)
    requires dt == 0.0 || intent == Zero
    ensures MovePlayer(pos, intent, dt, p) == pos
  {
  }

  /** Keys F, D and G to a firing direction: F fires up, D left, G right (G wins over D). */
  function KeyboardFireDirection(f: bool, d: bool, g: bool): (r: Vec2)
    ensures r == Zero <==> !f && !d && !g
    ensures r.y == (if f then 1.0 else 0.0)
    ensures g ==> r.x == 1.0
    ensures d && !g ==> r.x == -1.0
    ensures !d && !g ==> r.x == 0.0
  {
    var x := if g then 1.0 else if d then -1.0 else 0.0;
    var y := if f then 1.0 else 0.0;
    Vec2(x, y)
  }

  /**
   * `shoot_bullet`: no bullet for the zero direction; otherwise a bullet that keeps the
   * direction and starts half a player size from the player's centre along it.
   */
  function ShootBullet(player: Vec2, dir: Vec2): (r: Option<Bullet>)
    ensures r.None? <==> dir == Zero
    ensures r.Some? ==> r.value.dir == dir
    ensures r.Some? ==> Sub(r.value.pos, player) == Scale(dir, PlayerSize / 2.0)
  {
    if dir.x == 0.0 && dir.y == 0.0 then
      None
    else
      Some(Bullet(Add(player, Scale(dir, PlayerSize / 2.0)), dir))
  }

  /** A bullet outside any of the four bullet boundaries is despawned by `move_bullet`. */
  predicate OutOfBounds(b: Bullet, p: Platform) {
    var box := BoundsOf(p, BulletKind);
    b.pos.y > box.top || b.pos.y < box.bottom || b.pos.x > box.right || b.pos.x < box.left
  }

  function Advance(b: Bullet, dt: real): Bullet {
    Bullet(Add(b.pos, Scale(b.dir, BulletSpeed * dt)), b.dir)
  }

  /** The bullets after `move_bullet`, and which of them it marked for despawning. */
  datatype BulletPass = BulletPass(bullets: seq<Bullet>, culled: seq<bool>)

  /**
   * `move_bullet`: a bullet already out of bounds is marked and not moved; every other
   * bullet is advanced by direction * 600 * dt and kept, even if that takes it out of bounds.
   */
  function MoveBullets(bullets: seq<Bullet>, dt: real, p: Platform): (r: BulletPass)
    ensures |r.bullets| == |bullets| && |r.culled| == |bullets|
    ensures forall i :: 0 <= i < |bullets| ==> (r.culled[i] <==> OutOfBounds(bullets[i], p))
    ensures forall i :: 0 <= i < |bullets| && r.culled[i] ==> r.bullets[i] == bullets[i]
    ensures forall i :: 0 <= i < |bullets| && !r.culled[i] ==> r.bullets[i] == Advance(bullets[i], dt)
  {
    var culled := seq(|bullets|, i requires 0 <= i < |bullets| => OutOfBounds(bullets[i], p));
    var moved := seq(|bullets|, i requires 0 <= i < |bullets| =>
      if culled[i] then bullets[i] else Advance(bullets[i], dt));
    BulletPass(moved, culled)
  }

  /**
   * Once the culled bullets are removed, exactly the in-bounds bullets remain, each
   * advanced, and none of the out-of-bounds ones.
   */
  lemma MoveBulletsSurvivors(bullets: seq<Bullet>, dt: real, p: Platform)
    ensures var r := MoveBullets(bullets, dt, p);
      var kept := Keep(r.bullets, r.culled);
      && |kept| == |bullets| - CountTrue(r.culled)
      && (forall i :: 0 <= i < |bullets| && !OutOfBounds(bullets[i], p) ==> Advance(bullets[i], dt) in kept)
      && (forall b :: b in kept ==> exists i :: 0 <= i < |bullets| && !OutOfBounds(bullets[i], p) && b == Advance(bullets[i], dt))
  {
    var r := MoveBullets(bullets, dt, p);
    var kept := Keep(r.bullets, r.culled);
    forall b | b in kept
      ensures exists i :: 0 <= i < |bullets| && !OutOfBounds(bullets[i], p) && b == Advance(bullets[i], dt)
    {
      var i :| 0 <= i < |r.bullets| && !r.culled[i] && r.bullets[i] == b;
      assert !OutOfBounds(bullets[i], p);
    }
  }

  /** With no elapsed time no bullet moves, whether it is marked or not. */
  lemma MoveBulletsAtRest(bullets: seq<Bullet>, p: Platform)
    ensures var r := MoveBullets(bullets, 0.0, p);
      forall i :: 0 <= i < |bullets| ==> r.bullets[i] == bullets[i]
  {
    var r := MoveBullets(bullets, 0.0, p);
    forall i | 0 <= i < |bullets|
      ensures r.bullets[i] == bullets[i]
    {
      if !r.culled[i] {
        assert Scale(bullets[i].dir, BulletSpeed * 0.0) == Zero;
      }
    }
  }

  /** A bullet that an advance takes out of bounds is despawned by the next pass, without moving again. */
  lemma CulledOnNextPass(bullets: seq<Bullet>, dt: real, dt': real, p: Platform, i: nat)
    requires i < |bullets| && !OutOfBounds(bullets[i], p)
    requires OutOfBounds(Advance(bullets[i], dt), p)
    ensures var r := MoveBullets(bullets, dt, p);
      var r' := MoveBullets(r.bullets, dt', p);
      r'.culled[i] && r'.bullets[i] == Advance(bullets[i], dt)
  {
  }
}
