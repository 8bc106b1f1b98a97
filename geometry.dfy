/**
 * Axis-aligned boxes and the rectangle tests every game variant repeats inline:
 * strict overlap, the one-way platform landing test, the stomp test and
 * pygame's half-open point containment.
 */
module Geometry {
  /** A box as the game objects store it: integral x and width, real y (it picks up gravity), integral height. */
  datatype Box = Box(x: int, y: real, width: int, height: int)
  {
    function Right(): int { x + width }
    function Bottom(): real { y + height as real }
  }

  /** Strict overlap on both axes: boxes that only share an edge do not overlap. */
  predicate Overlaps(a: Box, b: Box)
  {
    a.x < b.Right() && a.Right() > b.x && a.y < b.Bottom() && a.Bottom() > b.y
  }

  /**
   * The platform test of every frame step: strict horizontal overlap, the
   * player's bottom at or below the platform top, the player's top above it.
   */
  predicate OnTop(p: Box, plat: Box)
  {
    p.Bottom() >= plat.y && p.y < plat.y && p.Right() > plat.x && p.x < plat.Right()
  }

  /** The stomp geometry: strict horizontal overlap and the player's bottom strictly inside the enemy's height. */
  predicate FeetInside(p: Box, e: Box)
  {
    p.Right() > e.x && p.x < e.Right() && p.Bottom() > e.y && p.Bottom() < e.Bottom()
  }

  lemma OverlapsSymmetric(a: Box, b: Box)
    ensures Overlaps(a, b) <==> Overlaps(b, a)
  {
  }

  /** A stomp is a special case of overlap, so the side-contact test is only reached when no stomp happened. */
  lemma FeetInsideOverlaps(p: Box, e: Box)
    requires p.height >= 0
    ensures FeetInside(p, e) ==> Overlaps(p, e)
  {
  }

  /** A pygame `Rect` with integral corner and size. */
  datatype Rect = Rect(left: int, top: int, width: int, height: int)

  /** `Rect.collidepoint`: the left and top edges belong to the rectangle, the right and bottom edges do not. */
  predicate Contains(r: Rect, px: int, py: int)
  {
    r.left <= px < r.left + r.width && r.top <= py < r.top + r.height
  }
}
