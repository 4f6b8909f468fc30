/** Axis-aligned rectangles and the overlap test the frame update uses to
    decide whether the player ran into a collider. */
module Collision {

  /** An SDL-style rectangle: top-left corner (x, y), width w, height h. */
  datatype Rect = Rect(x: int, y: int, w: int, h: int)

  /** The standard separating-axis test: the extents overlap on both axes.
      The comparisons are strict, so rectangles that only touch at an edge do
      not collide, and an overlap needs positive combined extent. */
  predicate AABB(a: Rect, b: Rect): (r: bool)
    ensures a.x + a.w == b.x || b.x + b.w == a.x || a.y + a.h == b.y || b.y + b.h == a.y ==> !r
    ensures r ==> a.w + b.w > 0 && a.h + b.h > 0
  {
    a.x < b.x + b.w && a.x + a.w > b.x &&
    a.y < b.y + b.h && a.y + a.h > b.y
  }

  /** The test does not depend on argument order. */
  lemma AABBSymmetric(a: Rect, b: Rect)
    ensures AABB(a, b) <==> AABB(b, a)
  {
  }

  /** A rectangle with positive extent always overlaps itself. */
  lemma AABBReflexive(a: Rect)
    requires a.w > 0 && a.h > 0
    ensures AABB(a, a)
  {
  }

  /** Rectangles whose x-ranges are disjoint never overlap, whatever their y. */
  lemma AABBDisjointX(a: Rect, b: Rect)
    requires a.x + a.w <= b.x || b.x + b.w <= a.x
    ensures !AABB(a, b)
  {
  }

  /** The same for disjoint y-ranges. */
  lemma AABBDisjointY(a: Rect, b: Rect)
    requires a.y + a.h <= b.y || b.y + b.h <= a.y
    ensures !AABB(a, b)
  {
  }
}
