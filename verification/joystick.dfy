/**
 * The mobile build's on-screen joysticks, which turn touches into the movement intent
 * (right joystick, in `move_player`) and the firing direction (left joystick, in
 * `shoot_bullet`). Touches are taken in world coordinates.
 */
module Joystick {
  import opened Vectors
  import opened Arena

  const JoystickZoneSize: real := 180.0

  function LeftJoystickX(): real {
    var w := WallsOf(Mobile);
    w.left * 0.8 + w.right * 0.2
  }

  function RightJoystickX(): real {
    var w := WallsOf(Mobile);
    w.left * 0.2 + w.right * 0.8
  }

  /** Both joysticks sit halfway between the true-bottom and the pre-bottom wall. */
  function JoystickY(): real {
    var w := WallsOf(Mobile);
    (w.trueBottom + w.preBottom) / 2.0
  }

  /** A touch offset from a joystick's centre counts when neither axis exceeds the zone size. */
  predicate InZone(offset: Vec2) {
    !(Abs(offset.x) > JoystickZoneSize || Abs(offset.y) > JoystickZoneSize)
  }

  /** Touch k is inside the zone around the centre, and no later touch is. */
  predicate LastInZone(touches: seq<Vec2>, center: Vec2, k: int) {
    && 0 <= k < |touches|
    && InZone(Sub(touches[k], center))
    && forall k' :: k < k' < |touches| ==> !InZone(Sub(touches[k'], center))
  }

  /**
   * The touch loop of `move_player`: every touch inside the zone replaces the direction with
   * its normalised offset, so the last such touch wins; with none the direction stays zero.
   */
  function JoystickDirection(touches: seq<Vec2>, center: Vec2, root: real -> real): (r: Vec2)
    requires IsSqrt(root)
    ensures (forall k :: 0 <= k < |touches| ==> !InZone(Sub(touches[k], center))) ==> r == Zero
    ensures (exists k :: 0 <= k < |touches| && InZone(Sub(touches[k], center))) ==>
      exists k :: LastInZone(touches, center, k) && r == Normalize(Sub(touches[k], center), root)
    decreases |touches|
  {
    if |touches| == 0 then
      Zero
    else
      var n := |touches| - 1;
      var offset := Sub(touches[n], center);
      if InZone(offset) then
        assert LastInZone(touches, center, n);
        Normalize(offset, root)
      else
        var r := JoystickDirection(touches[..n], center, root);
        InZonePrefix(touches, center);
        r
  }

  /** Dropping a final touch outside the zone changes neither which touches are in it nor which is last. */
  lemma InZonePrefix(touches: seq<Vec2>, center: Vec2)
    requires |touches| > 0 && !InZone(Sub(touches[|touches| - 1], center))
    ensures var n := |touches| - 1;
      && ((exists k :: 0 <= k < |touches| && InZone(Sub(touches[k], center)))
          ==> exists k :: 0 <= k < n && InZone(Sub(touches[..n][k], center)))
      && (forall k :: LastInZone(touches[..n], center, k) ==> LastInZone(touches, center, k))
      && (forall k :: 0 <= k < n ==> touches[..n][k] == touches[k])
  {
  }

  function RightJoystick(): Vec2 {
    Vec2(RightJoystickX(), JoystickY())
  }

  function LeftJoystick(): Vec2 {
    Vec2(LeftJoystickX(), JoystickY())
  }

  /** The movement intent from the right joystick: the normalised offset of the last touch in its zone. */
  function TouchMoveIntent(touches: seq<Vec2>, root: real -> real): (r: Vec2)
    requires IsSqrt(root)
    ensures (forall k :: 0 <= k < |touches| ==> !InZone(Sub(touches[k], RightJoystick()))) ==> r == Zero
    ensures (exists k :: 0 <= k < |touches| && InZone(Sub(touches[k], RightJoystick()))) ==>
      exists k :: LastInZone(touches, RightJoystick(), k) && r == Normalize(Sub(touches[k], RightJoystick()), root)
  {
    JoystickDirection(touches, RightJoystick(), root)
  }

  /**
   * The firing direction from the left joystick, with the zone check on the touch's own
   * offset on both axes, as `move_player` does it: the normalised offset of the last touch
   * in its zone.
   */
  function TouchFireDirection(touches: seq<Vec2>, root: real -> real): (r: Vec2)
    requires IsSqrt(root)
    ensures (forall k :: 0 <= k < |touches| ==> !InZone(Sub(touches[k], LeftJoystick()))) ==> r == Zero
    ensures (exists k :: 0 <= k < |touches| && InZone(Sub(touches[k], LeftJoystick()))) ==>
      exists k :: LastInZone(touches, LeftJoystick(), k) && r == Normalize(Sub(touches[k], LeftJoystick()), root)
  {
    JoystickDirection(touches, LeftJoystick(), root)
  }

  /**
   * The touch loop of `shoot_bullet` as written: the vertical half of the zone check reads
   * the direction accepted so far instead of the new touch's offset.
   */
  function ShootTouchAsWritten(touches: seq<Vec2>, root: real -> real): (r: Vec2)
    requires IsSqrt(root)
    decreases |touches|
  {
    if |touches| == 0 then
      Zero
    else
      var n := |touches| - 1;
      var direction := ShootTouchAsWritten(touches[..n], root);
      var newDirection := Sub(touches[n], LeftJoystick());
      if Abs(newDirection.x) > JoystickZoneSize || Abs(direction.y) > JoystickZoneSize then
        direction
      else
        Normalize(newDirection, root)
  }

  /**
   * As written, the vertical check never rejects: the direction so far is shorter than a
   * unit, so a touch anywhere in the joystick's column, however high, sets the firing direction.
   */
  lemma {:induction false} AsWrittenIgnoresHeight(touches: seq<Vec2>, root: real -> real)
    requires IsSqrt(root)
    requires |touches| > 0
    requires Abs(touches[|touches| - 1].x - LeftJoystickX()) <= JoystickZoneSize
    ensures ShootTouchAsWritten(touches, root)
      == Normalize(Sub(touches[|touches| - 1], LeftJoystick()), root)
  {
    var n := |touches| - 1;
    var direction := ShootTouchAsWritten(touches[..n], root);
    AsWrittenShort(touches[..n], root);
    ShortAxis(direction);
  }

  /** Every direction the loop holds is shorter than a unit. */
  lemma {:induction false} AsWrittenShort(touches: seq<Vec2>, root: real -> real)
    requires IsSqrt(root)
    ensures Len2(ShootTouchAsWritten(touches, root)) < 1.0
    decreases |touches|
  {
    if |touches| > 0 {
      var n := |touches| - 1;
      AsWrittenShort(touches[..n], root);
      NormalizeShorterThanUnit(Sub(touches[n], LeftJoystick()), root);
    }
  }

  lemma ShortAxis(v: Vec2)
    requires Len2(v) < 1.0
    ensures Abs(v.y) <= 1.0
  {
    var xx, yy := v.x * v.x, v.y * v.y;
    assert xx >= 0.0;
    assert xx + yy < 1.0;
    SquareBelowOne(Abs(v.y));
    assert Abs(v.y) * Abs(v.y) == yy;
  }

  /**
   * A single touch 500 units above the left joystick, in the middle of the play area, fires
   * straight up as written, while the intended check ignores it.
   */
  lemma TouchAboveJoystickFires(root: real -> real)
    requires IsSqrt(root)
    ensures var touches := [Vec2(LeftJoystickX(), JoystickY() + 500.0)];
      ShootTouchAsWritten(touches, root) != Zero && TouchFireDirection(touches, root) == Zero
  {
    var touches := [Vec2(LeftJoystickX(), JoystickY() + 500.0)];
    AsWrittenIgnoresHeight(touches, root);
    assert Sub(touches[0], LeftJoystick()) == Vec2(0.0, 500.0);
  }
}
