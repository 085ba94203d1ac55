/** `getProjected1DPos` of `src/globals.js`: signed projection of 2-D points onto the arrow. */
module Projection {
  import opened Numeric
  import opened Globals

  /** `arrow_angle / 360 * Math.PI * 2`: the angle in radians. */
  function Theta(arrowAngle: real): real
  {
    arrowAngle / 360.0 * PI * 2.0
  }

  /** A full turn of the arrow adds `2 PI` to the angle in radians; half a turn is `PI`. */
  lemma ThetaTurns(arrowAngle: real)
    ensures Theta(arrowAngle + 360.0) == Theta(arrowAngle) + 2.0 * PI
    ensures Theta(180.0) == PI && Theta(0.0) == 0.0
  {
  }

  /** `[dx, dy]`: the arrow head, `origin + radius * (cos, sin)`, minus the origin. */
  function ArrowVector(cos: real -> real, sin: real -> real, arrowRadius: real, arrowAngle: real): (d: Vec2)
    ensures d == Vec2(arrowRadius * cos(Theta(arrowAngle)), arrowRadius * sin(Theta(arrowAngle)))
  {
    var (x0, y0) := (FIXED_ARROW_ORIGIN.x, FIXED_ARROW_ORIGIN.y);
    var theta := Theta(arrowAngle);
    var x := x0 + arrowRadius * cos(theta);
    var y := y0 + arrowRadius * sin(theta);
    Vec2(x - x0, y - y0)
  }

  /** The dot product of `p - FIXED_ARROW_ORIGIN` with `d`. */
  function DotFromOrigin(p: Vec2, d: Vec2): real
  {
    (p.x - FIXED_ARROW_ORIGIN.x) * d.x + (p.y - FIXED_ARROW_ORIGIN.y) * d.y
  }

  /**
   * `getProjected1DPos(data_2d, arrow_radius, arrow_angle)`: for each point, the dot product
   * with the arrow vector divided by the radius, in the order of `data_2d`. Because the arrow
   * vector is `radius * (cos, sin)`, the radius cancels.
   */
  function Projected1DPos(cos: real -> real, sin: real -> real, data2d: seq<Vec2>, arrowRadius: real, arrowAngle: real): (r: seq<real>)
    requires arrowRadius != 0.0
    ensures |r| == |data2d|
    ensures forall k :: 0 <= k < |r| ==>
      r[k] == DotFromOrigin(data2d[k], Vec2(cos(Theta(arrowAngle)), sin(Theta(arrowAngle))))
  {
    var d := ArrowVector(cos, sin, arrowRadius, arrowAngle);
    var r := seq(|data2d|, k requires 0 <= k < |data2d| => DotFromOrigin(data2d[k], d) / arrowRadius);
    forall k | 0 <= k < |r|
      ensures r[k] == DotFromOrigin(data2d[k], Vec2(cos(Theta(arrowAngle)), sin(Theta(arrowAngle))))
    {
      RadiusCancels(data2d[k], arrowRadius, cos(Theta(arrowAngle)), sin(Theta(arrowAngle)));
    }
    r
  }

  /** Dividing the dot product with the scaled arrow by its radius gives the dot product with `(c, s)`. */
  lemma RadiusCancels(p: Vec2, radius: real, c: real, s: real)
    requires radius != 0.0
    ensures DotFromOrigin(p, Vec2(radius * c, radius * s)) / radius == DotFromOrigin(p, Vec2(c, s))
  {
    var px, py := p.x - FIXED_ARROW_ORIGIN.x, p.y - FIXED_ARROW_ORIGIN.y;
    assert px * (radius * c) + py * (radius * s) == radius * (px * c + py * s);
  }

  /** The projected positions do not depend on the arrow's length, only on its angle. */
  lemma ProjectionIgnoresRadius(cos: real -> real, sin: real -> real, data2d: seq<Vec2>, r1: real, r2: real, arrowAngle: real)
    requires r1 != 0.0 && r2 != 0.0
    ensures Projected1DPos(cos, sin, data2d, r1, arrowAngle) == Projected1DPos(cos, sin, data2d, r2, arrowAngle)
  {
  }

  /** The arrow origin projects to 0. */
  lemma OriginProjectsToZero(cos: real -> real, sin: real -> real, arrowRadius: real, arrowAngle: real)
    requires arrowRadius != 0.0
    ensures Projected1DPos(cos, sin, [FIXED_ARROW_ORIGIN], arrowRadius, arrowAngle) == [0.0]
  {
  }

  /** A point reflected through the origin projects to the negated value. */
  lemma ReflectionNegates(cos: real -> real, sin: real -> real, p: Vec2, arrowRadius: real, arrowAngle: real)
    requires arrowRadius != 0.0
    ensures var q := Vec2(2.0 * FIXED_ARROW_ORIGIN.x - p.x, 2.0 * FIXED_ARROW_ORIGIN.y - p.y);
            Projected1DPos(cos, sin, [q], arrowRadius, arrowAngle)[0]
              == -Projected1DPos(cos, sin, [p], arrowRadius, arrowAngle)[0]
  {
    var c, s := cos(Theta(arrowAngle)), sin(Theta(arrowAngle));
    var px, py := p.x - FIXED_ARROW_ORIGIN.x, p.y - FIXED_ARROW_ORIGIN.y;
    assert (-px) * c + (-py) * s == -(px * c + py * s);
  }

  /** When (cos, sin) is a unit vector, the arrow head projects to the radius: positive along the arrow. */
  lemma ArrowHeadProjectsToRadius(cos: real -> real, sin: real -> real, arrowRadius: real, arrowAngle: real)
    requires arrowRadius != 0.0
    requires cos(Theta(arrowAngle)) * cos(Theta(arrowAngle)) + sin(Theta(arrowAngle)) * sin(Theta(arrowAngle)) == 1.0
    ensures var d := ArrowVector(cos, sin, arrowRadius, arrowAngle);
            var head := Vec2(FIXED_ARROW_ORIGIN.x + d.x, FIXED_ARROW_ORIGIN.y + d.y);
            Projected1DPos(cos, sin, [head], arrowRadius, arrowAngle) == [arrowRadius]
  {
    var c, s := cos(Theta(arrowAngle)), sin(Theta(arrowAngle));
    var head := Vec2(FIXED_ARROW_ORIGIN.x + arrowRadius * c, FIXED_ARROW_ORIGIN.y + arrowRadius * s);
    assert (arrowRadius * c) * c + (arrowRadius * s) * s == arrowRadius * (c * c + s * s);
    assert DotFromOrigin(head, Vec2(c, s)) == arrowRadius;
    var d := ArrowVector(cos, sin, arrowRadius, arrowAngle);
    assert d == Vec2(arrowRadius * c, arrowRadius * s);
    assert Vec2(FIXED_ARROW_ORIGIN.x + d.x, FIXED_ARROW_ORIGIN.y + d.y) == head;
    var r := Projected1DPos(cos, sin, [head], arrowRadius, arrowAngle);
    assert |r| == 1 && r[0] == arrowRadius;
  }

  /**
   * Angle 0 with `cos 0 = 1` and `sin 0 = 0`, radius 10: the points 5 to the east, 5 to the
   * north and 5 to the west of the origin project to 5, 0 and -5.
   */
  lemma ProjectionAlongEast(cos: real -> real, sin: real -> real)
    requires cos(0.0) == 1.0 && sin(0.0) == 0.0
    ensures var o := FIXED_ARROW_ORIGIN;
            Projected1DPos(cos, sin, [Vec2(o.x + 5.0, o.y), Vec2(o.x, o.y + 5.0), Vec2(o.x - 5.0, o.y)], 10.0, 0.0)
              == [5.0, 0.0, -5.0]
  {
    assert Theta(0.0) == 0.0;
  }
}
