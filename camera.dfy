/**
 * The side-scrolling camera (src/world/camera.py; the same class is repeated in
 * platformer/game_new.py and platformer/game.py with the same constants).
 */
module Cameras {
  import opened Constants
  import opened Geometry

  function Min(a: int, b: int): int { if a <= b then a else b }
  function Max(a: int, b: int): int { if a >= b then a else b }

  /** An independent statement of the scroll rule: `v` forced into `[lo, hi]`. */
  function ClampInt(v: int, lo: int, hi: int): (r: int)
    requires lo <= hi
    ensures lo <= r <= hi
    ensures lo <= v <= hi ==> r == v
  {
    if v < lo then lo else if v > hi then hi else v
  }

  /**
   * The scroll offset `Camera.update` stores for a target at world x `targetX`:
   * the target is kept centred, and scrolling stops at both ends of the level.
   */
  function Scroll(targetX: int): (cx: int)
    ensures 0 <= cx <= LEVEL_WIDTH - WIDTH
    ensures targetX <= WIDTH / 2 ==> cx == 0
    ensures targetX >= LEVEL_WIDTH - WIDTH / 2 ==> cx == LEVEL_WIDTH - WIDTH
    ensures WIDTH / 2 <= targetX <= LEVEL_WIDTH - WIDTH / 2 ==> cx == targetX - WIDTH / 2
  {
    var x0 := -targetX + WIDTH / 2;
    var x1 := Min(0, x0);
    var x2 := Max(-(LEVEL_WIDTH - WIDTH), x1);
    -x2
  }

  /** The scroll offset is the centring offset clamped to the scrollable range. */
  lemma ScrollIsClampedOffset(targetX: int)
    ensures Scroll(targetX) == ClampInt(targetX - WIDTH / 2, 0, LEVEL_WIDTH - WIDTH)
  {
  }

  /** A target further right never scrolls the view further left. */
  lemma ScrollMonotone(a: int, b: int)
    requires a <= b
    ensures Scroll(a) <= Scroll(b)
  {
  }

  /**
   * A followed entity that stays inside the level and is at most half a screen
   * wide is drawn entirely on screen, and exactly at the screen centre while the
   * camera is free to scroll.
   */
  lemma FollowedEntityOnScreen(targetX: int, width: int)
    requires 0 <= width <= WIDTH / 2
    requires 0 <= targetX <= LEVEL_WIDTH - width
    ensures 0 <= targetX - Scroll(targetX) <= WIDTH - width
    ensures WIDTH / 2 <= targetX <= LEVEL_WIDTH - WIDTH / 2 ==> targetX - Scroll(targetX) == WIDTH / 2
  {
  }

  class Camera {
    /** `camera.camera.x`: how far the view is scrolled right. */
    var x: int

    /** `Camera(WIDTH, HEIGHT)`: the view rectangle starts at the origin. */
    constructor ()
      ensures x == 0
    {
      x := 0;
    }

    /** Scroll so that the target at world x `targetX` is followed; the old offset plays no part. */
    method Update(targetX: int)
      modifies this
      ensures x == Scroll(targetX)
    {
      var off := -targetX + WIDTH / 2;
      off := Min(0, off);
      off := Max(-(LEVEL_WIDTH - WIDTH), off);
      x := -off;
    }

    /** World to screen: only x shifts, by the scroll offset; y and size are kept. */
    function Apply(b: Box): (r: Box)
      reads this
      ensures r.x + x == b.x && r.y == b.y && r.width == b.width && r.height == b.height
    {
      Box(b.x - x, b.y, b.width, b.height)
    }
  }
}
