/**
 * The arena's constants: wall coordinates for the desktop and the mobile build,
 * entity sizes, and the box each kind of entity's centre is kept in.
 */
module Arena {
  import opened Vectors

  /** The two builds of the game; they differ in arena height, enemy speed and enemy cap. */
  datatype Platform = Desktop | Mobile

  const PlayerSize: real := 30.0
  const EnemySize: real := 20.0
  const BulletSize: real := 5.0
  const WallThickness: real := 10.0

  /** Speed (units per second) of the player and of bullets. */
  const PlayerSpeed: real := 600.0
  const BulletSpeed: real := 600.0

  function InitialEnemySpeedFactor(p: Platform): real {
    match p
    case Desktop => 70.0
    case Mobile => 40.0
  }

  function MaxNumberOfEnemies(p: Platform): nat {
    match p
    case Desktop => 8
    case Mobile => 4
  }

  /**
   * Wall centre lines and thickness. The bottom of the play area is the pre-bottom
   * wall; on the mobile build the strip between it and the true bottom wall holds the joysticks.
   */
  datatype Walls = Walls(left: real, right: real, top: real, preBottom: real, trueBottom: real, thickness: real)

  function WallsOf(p: Platform): (w: Walls)
    ensures w.left < 0.0 < w.right
    ensures w.trueBottom <= w.preBottom < 0.0 < w.top
    ensures w.thickness == WallThickness
    ensures p == Desktop ==> w.preBottom == w.trueBottom
  {
    match p
    case Desktop => Walls(-350.0, 350.0, 300.0, -300.0, -300.0, WallThickness)
    case Mobile => Walls(-350.0, 350.0, 700.0, -250.0, -700.0, WallThickness)
  }

  /** A closed axis-aligned box. */
  datatype Bounds = Bounds(left: real, right: real, bottom: real, top: real) {
    predicate Contains(v: Vec2) {
      left <= v.x <= right && bottom <= v.y <= top
    }
  }

  datatype Kind = PlayerKind | EnemyKind | BulletKind

  function SizeOf(k: Kind): real {
    match k
    case PlayerKind => PlayerSize
    case EnemyKind => EnemySize
    case BulletKind => BulletSize
  }

  /** The box an entity's centre may occupy: the play area inset by the wall thickness and half the entity's size. */
  function BoundsFor(w: Walls, size: real): Bounds {
    var inset := w.thickness + size / 2.0;
    Bounds(w.left + inset, w.right - inset, w.preBottom + inset, w.top - inset)
  }

  /** The PLAYER_*, ENEMY_* and BULLET_* boundary constants; each box is non-degenerate and holds the origin. */
  function BoundsOf(p: Platform, k: Kind): (b: Bounds)
    ensures b.left < 0.0 < b.right
    ensures b.bottom < 0.0 < b.top
    ensures b.Contains(Zero)
  {
    BoundsFor(WallsOf(p), SizeOf(k))
  }

  /** A larger entity is confined to a smaller box: player inside enemy inside bullet bounds. */
  lemma BoundsNested(p: Platform, v: Vec2)
    ensures BoundsOf(p, PlayerKind).Contains(v) ==> BoundsOf(p, EnemyKind).Contains(v)
    ensures BoundsOf(p, EnemyKind).Contains(v) ==> BoundsOf(p, BulletKind).Contains(v)
  {
  }
}
