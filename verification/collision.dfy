/** The axis-aligned bounding-box overlap test of include/collision.h.
    Overlap is strict on both axes: rectangles that only share an edge do not
    intersect. */
module Collision {
  import opened Geometry

  /** `aabbIntersect(a, b)`: the four strict comparisons of the two extents.
      An overlap needs a positive combined extent on each axis. */
  predicate Intersects(a: Rect, b: Rect)
    ensures Intersects(a, b) ==> a.w + b.w > 0.0 && a.h + b.h > 0.0
  {
    a.x < b.x + b.w && a.x + a.w > b.x &&
    a.y < b.y + b.h && a.y + a.h > b.y
  }

  /** `(px, py)` lies strictly inside `r`. */
  ghost predicate Inside(r: Rect, px: real, py: real)
  {
    r.x < px < r.x + r.w && r.y < py < r.y + r.h
  }

  /** The test does not depend on the order of its arguments. */
  lemma IntersectsSymmetric(a: Rect, b: Rect)
    ensures Intersects(a, b) <==> Intersects(b, a)
  {
  }

  /** Touching edge to edge on the x axis is not an overlap, whatever the y values. */
  lemma TouchingEdgesDoNotIntersect(a: Rect, b: Rect)
    requires a.x + a.w == b.x || b.x + b.w == a.x
    ensures !Intersects(a, b)
  {
  }

  /** Rectangles separated on one axis never intersect. */
  lemma SeparatedDoNotIntersect(a: Rect, b: Rect)
    requires a.x + a.w <= b.x || b.x + b.w <= a.x ||
             a.y + a.h <= b.y || b.y + b.h <= a.y
    ensures !Intersects(a, b)
  {
  }

  /** Conversely, rectangles that intersect are separated on neither axis. */
  lemma IntersectingAreNotSeparated(a: Rect, b: Rect)
    requires Intersects(a, b)
    ensures b.x - a.w < a.x < b.x + b.w
    ensures b.y - a.h < a.y < b.y + b.h
  {
  }

  /** Moving both rectangles by the same offset does not change the answer. */
  lemma TranslationInvariant(a: Rect, b: Rect, dx: real, dy: real)
    ensures Intersects(Translate(a, dx, dy), Translate(b, dx, dy)) <==> Intersects(a, b)
  {
  }

  /** A rectangle intersects itself exactly when it has a positive area. */
  lemma SelfIntersectsIffPositiveSize(r: Rect)
    ensures Intersects(r, r) <==> r.w > 0.0 && r.h > 0.0
  {
  }

  /** Two rectangles of non-positive width never intersect: the test needs a
      positive extent from at least one of them on each axis. */
  lemma DegenerateWidthsNeverIntersect(a: Rect, b: Rect)
    requires a.w <= 0.0 && b.w <= 0.0
    ensures !Intersects(a, b)
  {
  }

  /** For rectangles of positive size the test is exactly "some point lies
      strictly inside both": an independent, geometric reading of the four
      comparisons. */
  lemma IntersectsIffCommonInteriorPoint(a: Rect, b: Rect)
    requires a.w > 0.0 && a.h > 0.0 && b.w > 0.0 && b.h > 0.0
    ensures Intersects(a, b) <==> exists px, py :: Inside(a, px, py) && Inside(b, px, py)
  {
    if Intersects(a, b) {
      var left := if a.x < b.x then b.x else a.x;
      var right := if a.x + a.w < b.x + b.w then a.x + a.w else b.x + b.w;
      var top := if a.y < b.y then b.y else a.y;
      var bottom := if a.y + a.h < b.y + b.h then a.y + a.h else b.y + b.h;
      var px, py := (left + right) / 2.0, (top + bottom) / 2.0;
      assert Inside(a, px, py) && Inside(b, px, py);
    }
    if exists px, py :: Inside(a, px, py) && Inside(b, px, py) {
      var px, py :| Inside(a, px, py) && Inside(b, px, py);
      assert Intersects(a, b);
    }
  }
}
