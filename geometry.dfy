/** Axis-aligned rectangles (hitboxes). The repository's
    lib/game/utils/Rectangle.ts is not part of this model: `Intersects` and
    `Shrink` below follow its documented behaviour (strict overlap on both
    axes; inset on all four sides, sizes clamped at zero). */
module Geometry {

  datatype Rect = Rect(x: real, y: real, width: real, height: real)

  function Max(a: real, b: real): real { if a >= b then a else b }

  function Min(a: real, b: real): real { if a <= b then a else b }

  /** Both projections overlap, strictly. */
  predicate Intersects(a: Rect, b: Rect)
    ensures a.x + a.width <= b.x || b.x + b.width <= a.x ==> !Intersects(a, b)
    ensures a.y + a.height <= b.y || b.y + b.height <= a.y ==> !Intersects(a, b)
  {
    a.x < b.x + b.width && b.x < a.x + a.width &&
    a.y < b.y + b.height && b.y < a.y + a.height
  }

  /** `inner` lies within `outer`, edges included. */
  predicate Contains(outer: Rect, inner: Rect) {
    outer.x <= inner.x && inner.x + inner.width <= outer.x + outer.width &&
    outer.y <= inner.y && inner.y + inner.height <= outer.y + outer.height
  }

  /** The rectangle inset by `n` on every side. */
  function Shrink(r: Rect, n: real): (s: Rect)
    ensures s.width >= 0.0 && s.height >= 0.0
    ensures 0.0 <= n && 2.0 * n <= r.width && 2.0 * n <= r.height ==>
              Contains(r, s) && s.width == r.width - 2.0 * n && s.height == r.height - 2.0 * n
  {
    Rect(r.x + n, r.y + n, Max(0.0, r.width - 2.0 * n), Max(0.0, r.height - 2.0 * n))
  }

  lemma IntersectsSymmetric(a: Rect, b: Rect)
    ensures Intersects(a, b) <==> Intersects(b, a)
  {
  }

  /** A box inside another can only meet what the outer box meets: a
      forgiving (shrunk) hitbox removes collisions and never adds one. */
  lemma ContainedIntersection(outer: Rect, inner: Rect, other: Rect)
    requires Contains(outer, inner)
    ensures Intersects(inner, other) ==> Intersects(outer, other)
  {
  }

  /** Under the strict overlap test a box shrunk to zero size still meets a
      box that surrounds it: clamping the size at zero does not by itself
      make a box collision-free. */
  lemma ZeroSizeBoxCanStillIntersect()
    ensures Shrink(Rect(0.0, 0.0, 10.0, 10.0), 6.0) == Rect(6.0, 6.0, 0.0, 0.0)
    ensures Intersects(Shrink(Rect(0.0, 0.0, 10.0, 10.0), 6.0), Rect(0.0, 0.0, 10.0, 10.0))
    ensures Intersects(Rect(0.0, 0.0, 10.0, 10.0), Rect(5.0, 5.0, 10.0, 10.0))
    ensures !Intersects(Rect(0.0, 0.0, 10.0, 10.0), Rect(20.0, 20.0, 5.0, 5.0))
  {
  }
}
