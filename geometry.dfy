/** Positions and the proximity test used by the interaction step.
    The game measures Euclidean distance between sprite positions and
    compares it with 40; on integer positions `sqrt(d) < 40` holds exactly
    when `d < 1600`, so the model compares squared distances. */
module Geometry {

  /** A position in world pixels. */
  datatype Point = Point(x: int, y: int)

  /** The interaction radius of the chair and door scans. */
  const InteractRadius: int := 40

  lemma SquareNonNegative(n: int)
    ensures n * n >= 0
    ensures n * n == 0 <==> n == 0
  {
    if n < 0 {
      assert n * n == (-n) * (-n);
    }
  }

  /** Squared Euclidean distance between two points. */
  function DistSq(a: Point, b: Point): (d: int)
    ensures d >= 0
    ensures d == 0 <==> a == b
  {
    SquareNonNegative(a.x - b.x);
    SquareNonNegative(a.y - b.y);
    (a.x - b.x) * (a.x - b.x) + (a.y - b.y) * (a.y - b.y)
  }

  /** The strict `distance < 40` test of the chair and door scans. */
  predicate Near(a: Point, b: Point): (r: bool)
    ensures a == b ==> r
    ensures b == Point(a.x + InteractRadius, a.y) ==> !r
  {
    DistSq(a, b) < InteractRadius * InteractRadius
  }

  lemma SquareAtLeast(n: int)
    requires n >= InteractRadius || n <= -InteractRadius
    ensures n * n >= InteractRadius * InteractRadius
  {
    if n >= InteractRadius {
      assert n * n >= InteractRadius * n;
    } else {
      assert n * n == (-n) * (-n);
      assert (-n) * (-n) >= InteractRadius * (-n);
    }
  }

  /** Two near points are less than 40 apart along each axis. */
  lemma NearWithinBox(a: Point, b: Point)
    requires Near(a, b)
    ensures -InteractRadius < a.x - b.x < InteractRadius
    ensures -InteractRadius < a.y - b.y < InteractRadius
  {
    SquareNonNegative(a.x - b.x);
    SquareNonNegative(a.y - b.y);
    if a.x - b.x >= InteractRadius || a.x - b.x <= -InteractRadius {
      SquareAtLeast(a.x - b.x);
    }
    if a.y - b.y >= InteractRadius || a.y - b.y <= -InteractRadius {
      SquareAtLeast(a.y - b.y);
    }
  }

  /** Distance, and so proximity, does not depend on the order of the points. */
  lemma DistSqSymmetric(a: Point, b: Point)
    ensures DistSq(a, b) == DistSq(b, a)
    ensures Near(a, b) <==> Near(b, a)
  {
    assert (b.x - a.x) * (b.x - a.x) == (a.x - b.x) * (a.x - b.x);
    assert (b.y - a.y) * (b.y - a.y) == (a.y - b.y) * (a.y - b.y);
  }
}
