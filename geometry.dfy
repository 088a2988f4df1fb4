/** Integer geometry shared by the game model: pygame-style rectangles,
    their overlap test, and the clamping used by paddle movement. */
module Geometry {

  /** An axis-aligned rectangle with integer corner (x, y), width w and height h,
      as a pygame `Rect` holds it (y grows downwards). */
  datatype Rect = Rect(x: int, y: int, w: int, h: int)

  /** `Rect.colliderect`: the two rectangles share interior area. Edges
      that only touch do not collide; a rectangle of positive size whose
      top-left pixel lies inside the other does collide. */
  predicate Collide(a: Rect, b: Rect): (r: bool)
    ensures a.x + a.w == b.x || b.x + b.w == a.x ==> !r
    ensures a.y + a.h == b.y || b.y + b.h == a.y ==> !r
    ensures b.w > 0 && b.h > 0 && Contains(a, b.x, b.y) ==> r
  {
    a.x < b.x + b.w && b.x < a.x + a.w &&
    a.y < b.y + b.h && b.y < a.y + a.h
  }

  /** The pixel (px, py) lies inside r (right and bottom edges excluded). */
  predicate Contains(r: Rect, px: int, py: int) {
    r.x <= px < r.x + r.w && r.y <= py < r.y + r.h
  }

  function Max(a: int, b: int): (r: int)
    ensures r >= a && r >= b && (r == a || r == b)
  {
    if a >= b then a else b
  }

  /** Python's `abs` on integers. */
  function Abs(v: int): (r: int)
    ensures r >= 0 && (r == v || r == -v)
  {
    if v < 0 then -v else v
  }

  /** Forces v into [lo, hi]: below lo gives lo, above hi gives hi. */
  function Clamp(v: int, lo: int, hi: int): (r: int)
    ensures lo <= hi ==> lo <= r <= hi
    ensures lo <= v <= hi ==> r == v
    ensures v < lo ==> r == lo
    ensures lo <= hi && hi < v ==> r == hi
  {
    if v < lo then lo else if v > hi then hi else v
  }

  /** The overlap test agrees with its geometric meaning: two rectangles of
      positive size collide exactly when some pixel lies inside both. */
  lemma CollideIffCommonPoint(a: Rect, b: Rect)
    requires a.w > 0 && a.h > 0 && b.w > 0 && b.h > 0
    ensures Collide(a, b) <==> exists px, py :: Contains(a, px, py) && Contains(b, px, py)
  {
    if Collide(a, b) {
      var px, py := Max(a.x, b.x), Max(a.y, b.y);
      assert Contains(a, px, py) && Contains(b, px, py);
    }
  }
}
