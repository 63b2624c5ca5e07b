/**
 * The game's entities, states and events, and the end-of-frame removal of the
 * entities a frame's systems marked for despawning.
 */
module Entities {
  import opened Vectors

  /** A bullet keeps the direction it was fired in. */
  datatype Bullet = Bullet(pos: Vec2, dir: Vec2)

  /** An enemy's direction is recomputed every frame it moves. */
  datatype Enemy = Enemy(pos: Vec2, dir: Vec2)

  datatype AppState = GameStart | InGame | Paused | GameOver

  /**
   * The events one frame sends. Neither `CollisionBulletEnemyEvent` nor `GameOverEvent`
   * carries a payload, so a frame's events are how many of each were sent.
   */
  datatype Events = Events(collisions: nat, gameOvers: nat)

  const NoEvents: Events := Events(0, 0)

  function CountTrue(marks: seq<bool>): (n: nat)
    ensures n <= |marks|
  {
    if |marks| == 0 then 0 else (if marks[0] then 1 else 0) + CountTrue(marks[1..])
  }

  /** A marking with some mark set counts at least one. */
  lemma {:induction false} CountTruePositive(marks: seq<bool>, j: nat)
    requires j < |marks| && marks[j]
    ensures CountTrue(marks) >= 1
  {
    if j > 0 {
      CountTruePositive(marks[1..], j - 1);
    }
  }

  /** Pointwise disjunction of two despawn markings of the same entities. */
  function Either(a: seq<bool>, b: seq<bool>): (r: seq<bool>)
    requires |a| == |b|
    ensures |r| == |a|
    ensures forall i :: 0 <= i < |a| ==> (r[i] <==> a[i] || b[i])
  {
    seq(|a|, i requires 0 <= i < |a| => a[i] || b[i])
  }

  function NoneMarked(n: nat): (r: seq<bool>)
    ensures |r| == n && CountTrue(r) == 0
    ensures forall i :: 0 <= i < n ==> !r[i]
  {
    if n == 0 then [] else [false] + NoneMarked(n - 1)
  }

  /**
   * The entities left once every marked one is despawned: the unmarked ones, in their
   * original order, and nothing else.
   */
  function Keep<T>(xs: seq<T>, dead: seq<bool>): (r: seq<T>)
    requires |dead| == |xs|
    ensures |r| == |xs| - CountTrue(dead)
    ensures forall i :: 0 <= i < |xs| && !dead[i] ==> xs[i] in r
    ensures forall x :: x in r ==> exists i :: 0 <= i < |xs| && !dead[i] && xs[i] == x
  {
    if |xs| == 0 then
      []
    else
      var rest := Keep(xs[1..], dead[1..]);
      assert forall i :: 1 <= i < |xs| && !dead[i] ==> xs[i] in rest by {
        forall i | 1 <= i < |xs| && !dead[i]
          ensures xs[i] in rest
        {
          assert xs[1..][i - 1] == xs[i] && dead[1..][i - 1] == dead[i];
        }
      }
      assert forall x :: x in rest ==> exists i :: 1 <= i < |xs| && !dead[i] && xs[i] == x by {
        forall x | x in rest
          ensures exists i :: 1 <= i < |xs| && !dead[i] && xs[i] == x
        {
          var j :| 0 <= j < |xs| - 1 && !dead[1..][j] && xs[1..][j] == x;
          assert xs[j + 1] == x && !dead[j + 1];
        }
      }
      if dead[0] then rest else [xs[0]] + rest
  }

  /**
   * Keep preserves order: an unmarked entity lands at its own index less the number of
   * marked entities before it.
   */
  lemma {:induction false} KeepInOrder<T>(xs: seq<T>, dead: seq<bool>, i: nat)
    requires |dead| == |xs| && i < |xs| && !dead[i]
    ensures i - CountTrue(dead[..i]) < |Keep(xs, dead)|
    ensures Keep(xs, dead)[i - CountTrue(dead[..i])] == xs[i]
  {
    if i > 0 {
      KeepInOrder(xs[1..], dead[1..], i - 1);
      assert dead[..i][1..] == dead[1..][..i - 1];
      assert xs[1..][i - 1] == xs[i];
    }
  }

  /** Keeping with no marks keeps everything. */
  lemma {:induction false} KeepUnmarked<T>(xs: seq<T>, dead: seq<bool>)
    requires |dead| == |xs|
    requires forall i :: 0 <= i < |xs| ==> !dead[i]
    ensures Keep(xs, dead) == xs
  {
    if |xs| > 0 {
      KeepUnmarked(xs[1..], dead[1..]);
      assert [xs[0]] + xs[1..] == xs;
    }
  }

  /** Setting one mark adds at most one to the count. */
  lemma {:induction false} CountTrueSet(marks: seq<bool>, j: nat)
    requires j < |marks|
    ensures CountTrue(marks[j := true]) <= CountTrue(marks) + 1
  {
    if j > 0 {
      CountTrueSet(marks[1..], j - 1);
      assert marks[j := true][1..] == marks[1..][j - 1 := true];
    }
  }
}
