/** Rectangles and the collision test of the falling-icon game (ExamScreen.kt). */
module Geometry {

  /** An axis-aligned bounding box in pixels. The source uses `Float`; the model
      uses exact reals. */
  datatype Rect = Rect(left: real, top: real, right: real, bottom: real)

  /** A role icon: the name shown in the collision message and its zone. */
  datatype RoleBounds = RoleBounds(name: string, rect: Rect)

  function Width(r: Rect): real { r.right - r.left }

  function Height(r: Rect): real { r.bottom - r.top }

  /** A rectangle with positive extent on both axes. */
  predicate Proper(r: Rect) { r.left < r.right && r.top < r.bottom }

  /** `(x, y)` lies in the open interior of `r`. */
  predicate StrictlyInside(r: Rect, x: real, y: real) {
    r.left < x < r.right && r.top < y < r.bottom
  }

  /** The source's overlap test: strict on all four sides. */
  predicate CheckCollision(falling: Rect, target: Rect) {
    falling.left < target.right &&
    falling.right > target.left &&
    falling.top < target.bottom &&
    falling.bottom > target.top
  }

  function Max(a: real, b: real): real { if a < b then b else a }

  function Min(a: real, b: real): real { if a < b then a else b }

  /** The test does not depend on which rectangle is the falling one. */
  lemma CollisionSymmetric(a: Rect, b: Rect)
    ensures CheckCollision(a, b) == CheckCollision(b, a)
  {
  }

  /** Rectangles that only share an edge, or lie apart, do not collide. */
  lemma TouchingDoesNotCollide(a: Rect, b: Rect)
    requires a.right <= b.left || b.right <= a.left || a.bottom <= b.top || b.bottom <= a.top
    ensures !CheckCollision(a, b)
  {
  }

  /** For rectangles of positive size, the test is exactly "the open interiors
      share a point", an independent description of overlap. */
  lemma CollisionIffCommonInteriorPoint(a: Rect, b: Rect)
    requires Proper(a) && Proper(b)
    ensures CheckCollision(a, b) <==>
              exists x: real, y: real :: StrictlyInside(a, x, y) && StrictlyInside(b, x, y)
  {
    if CheckCollision(a, b) {
      var x := (Max(a.left, b.left) + Min(a.right, b.right)) / 2.0;
      var y := (Max(a.top, b.top) + Min(a.bottom, b.bottom)) / 2.0;
      assert StrictlyInside(a, x, y) && StrictlyInside(b, x, y);
    }
  }
}
