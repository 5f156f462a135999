/** Axis-aligned rectangles and the strict overlap test shared by both engines. */
module Geometry {

  function MinR(a: real, b: real): (r: real)
    ensures r <= a && r <= b && (r == a || r == b)
  {
    if a <= b then a else b
  }

  function MaxR(a: real, b: real): (r: real)
    ensures r >= a && r >= b && (r == a || r == b)
  {
    if a >= b then a else b
  }

  function MinI(a: int, b: int): (r: int)
    ensures r <= a && r <= b && (r == a || r == b)
  {
    if a <= b then a else b
  }

  /** The range of Math.random(): a draw in [0, 1). */
  predicate InUnit(r: real)
  {
    0.0 <= r < 1.0
  }

  /** Multiplying by a non-negative factor keeps order. */
  lemma MulMonotone(a: real, b: real, s: real)
    requires a <= b && s >= 0.0
    ensures a * s <= b * s
  {
    assert (b - a) * s >= 0.0;
  }

  /** Multiplying by a positive factor keeps strict order. */
  lemma MulStrict(a: real, b: real, s: real)
    requires a < b && s > 0.0
    ensures a * s < b * s
  {
    assert (b - a) * s > 0.0;
  }

  /** A rectangle given by its top-left corner and its extent. */
  datatype Box = Box(x: real, y: real, width: real, height: real)

  /** The box `b` with `pad` cut off every side. */
  function Shrink(b: Box, pad: real): (r: Box)
    ensures r.x - b.x == pad && (b.x + b.width) - (r.x + r.width) == pad
    ensures r.y - b.y == pad && (b.y + b.height) - (r.y + r.height) == pad
  {
    Box(b.x + pad, b.y + pad, b.width - pad * 2.0, b.height - pad * 2.0)
  }

  /** Strict overlap on all four edges: boxes that only touch do not overlap.
      Only boxes of positive total extent can overlap, and for boxes of
      positive size the test says that their extents intersect on both axes. */
  function Overlaps(a: Box, b: Box): (r: bool)
    ensures r ==> a.width + b.width > 0.0 && a.height + b.height > 0.0
    ensures a.width > 0.0 && b.width > 0.0 && a.height > 0.0 && b.height > 0.0 ==>
      (r <==> MaxR(a.x, b.x) < MinR(a.x + a.width, b.x + b.width) &&
              MaxR(a.y, b.y) < MinR(a.y + a.height, b.y + b.height))
  {
    a.x < b.x + b.width &&
    a.x + a.width > b.x &&
    a.y < b.y + b.height &&
    a.y + a.height > b.y
  }

  predicate Inside(px: real, py: real, b: Box)
  {
    b.x < px < b.x + b.width && b.y < py < b.y + b.height
  }

  lemma OverlapsSymmetric(a: Box, b: Box)
    ensures Overlaps(a, b) == Overlaps(b, a)
  {
  }

  /** Boxes that share only an edge (or lie further apart) do not overlap. */
  lemma TouchingDoesNotOverlap(a: Box, b: Box)
    requires a.x + a.width <= b.x || b.x + b.width <= a.x ||
             a.y + a.height <= b.y || b.y + b.height <= a.y
    ensures !Overlaps(a, b)
  {
  }

  /** For boxes of positive extent, the overlap test holds exactly when
      some point lies strictly inside both boxes. */
  lemma OverlapsIffCommonPoint(a: Box, b: Box)
    requires a.width > 0.0 && a.height > 0.0 && b.width > 0.0 && b.height > 0.0
    ensures Overlaps(a, b) <==> exists px: real, py: real :: Inside(px, py, a) && Inside(px, py, b)
  {
    if Overlaps(a, b) {
      var px := (MaxR(a.x, b.x) + MinR(a.x + a.width, b.x + b.width)) / 2.0;
      var py := (MaxR(a.y, b.y) + MinR(a.y + a.height, b.y + b.height)) / 2.0;
      assert Inside(px, py, a) && Inside(px, py, b);
    }
    if exists px: real, py: real :: Inside(px, py, a) && Inside(px, py, b) {
      var px: real, py: real :| Inside(px, py, a) && Inside(px, py, b);
      assert Overlaps(a, b);
    }
  }
}
