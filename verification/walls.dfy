/** Placement and size of the arena walls (`WallLocation::position` and `WallLocation::size`). */
module WallScoreboard {
  import opened Vectors
  import opened Arena
  import opened Wrappers

  datatype WallLocation = Left | Right | PreBottom | TrueBottom | Top

  /** The pre-bottom wall is only built on mobile. */
  predicate Built(loc: WallLocation, p: Platform) {
    loc.PreBottom? ==> p == Mobile
  }

  /** Centre of a wall. */
  function Position(loc: WallLocation, w: Walls): Vec2 {
    var sideY := (w.top + w.trueBottom) / 2.0;
    var midX := (w.right + w.left) / 2.0;
    match loc
    case Left => Vec2(w.left, sideY)
    case Right => Vec2(w.right, sideY)
    case PreBottom => Vec2(midX, w.preBottom)
    case TrueBottom => Vec2(midX, w.trueBottom)
    case Top => Vec2(midX, w.top)
  }

  /**
   * Extent of a wall. `None` is the failed assertion on the arena's height or width,
   * which aborts the program; otherwise every component is positive when the thickness is.
   */
  function Size(loc: WallLocation, w: Walls): (r: Option<Vec2>)
    ensures r.Some? <==> w.top - w.trueBottom > 0.0 && w.right - w.left > 0.0
    ensures r.Some? && w.thickness > 0.0 ==> r.value.x > 0.0 && r.value.y > 0.0
    ensures r.Some? && (loc.Left? || loc.Right?) ==> r.value.x == w.thickness
    ensures r.Some? && !(loc.Left? || loc.Right?) ==> r.value.y == w.thickness
  {
    var arenaHeight := w.top - w.trueBottom;
    var arenaWidth := w.right - w.left;
    if !(arenaHeight > 0.0) || !(arenaWidth > 0.0) then
      None
    else
      match loc
      case Left => Some(Vec2(w.thickness, arenaHeight + w.thickness))
      case Right => Some(Vec2(w.thickness, arenaHeight + w.thickness))
      case Top => Some(Vec2(arenaWidth + w.thickness, w.thickness))
      case TrueBottom => Some(Vec2(arenaWidth + w.thickness, w.thickness))
      case PreBottom => Some(Vec2(arenaWidth + w.thickness, w.thickness))
  }

  /**
   * The side walls stand on the left and right coordinates at a common height, halfway
   * between the top and true-bottom walls; the horizontal walls share the x halfway between
   * the side walls, each at its own coordinate.
   */
  lemma WallLayout(w: Walls)
    ensures Position(Left, w).x == w.left && Position(Right, w).x == w.right
    ensures Position(Left, w).y == Position(Right, w).y
    ensures Position(Left, w).y == (Position(Top, w).y + Position(TrueBottom, w).y) / 2.0
    ensures Position(Top, w).y == w.top && Position(TrueBottom, w).y == w.trueBottom
    ensures Position(PreBottom, w).y == w.preBottom
    ensures Position(Top, w).x == (Position(Left, w).x + Position(Right, w).x) / 2.0
    ensures Position(TrueBottom, w).x == Position(Top, w).x
    ensures Position(PreBottom, w).x == Position(Top, w).x
  {
  }

  /**
   * The walls close the arena: a side wall reaches from the outer face of the true-bottom
   * wall to the outer face of the top wall, and a horizontal wall reaches from the outer face
   * of the left wall to the outer face of the right wall.
   */
  lemma WallsMeetAtCorners(loc: WallLocation, w: Walls)
    requires Size(loc, w).Some?
    ensures var c, s := Position(loc, w), Size(loc, w).value;
      if loc.Left? || loc.Right? then
        c.y - s.y / 2.0 == w.trueBottom - w.thickness / 2.0 && c.y + s.y / 2.0 == w.top + w.thickness / 2.0
      else
        c.x - s.x / 2.0 == w.left - w.thickness / 2.0 && c.x + s.x / 2.0 == w.right + w.thickness / 2.0
  {
  }

  /** Neither build trips the arena assertions, for any wall it builds. */
  lemma ArenaAssertionsHold(p: Platform, loc: WallLocation)
    requires Built(loc, p)
    ensures Size(loc, WallsOf(p)).Some?
    ensures Size(loc, WallsOf(p)).value.x > 0.0 && Size(loc, WallsOf(p)).value.y > 0.0
  {
  }
}
