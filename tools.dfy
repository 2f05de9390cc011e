/** The arithmetic helpers of Willow/Tools.cs, over exact reals: single-step
    angle wrapping, the segment bounding-box test, HSV to RGB conversion and
    the Möller–Trumbore ray/triangle test. */
module Tools {
  import opened Wrappers
  import opened Positions

  /** XNA's `MathHelper.Pi` and `MathHelper.TwoPi` (single-precision values). */
  const Pi: real := 3.14159274
  const TwoPi: real := 6.28318548

  /** Brings an angle in degrees back by one turn at most: below -180 add
      360, above 180 subtract 360. */
  function WrapAngleDegrees(degrees: real): (r: real)
    ensures r == degrees || r == degrees + 360.0 || r == degrees - 360.0
    ensures -540.0 <= degrees <= 540.0 ==> -180.0 <= r <= 180.0
    ensures -180.0 <= degrees <= 180.0 ==> r == degrees
  {
    var d := if degrees < -180.0 then degrees + 360.0 else degrees;
    if d > 180.0 then d - 360.0 else d
  }

  /** The same in radians, by one `TwoPi`. */
  function WrapAngle(radians: real): (r: real)
    ensures r == radians || r == radians + TwoPi || r == radians - TwoPi
    ensures -3.0 * Pi <= radians <= 3.0 * Pi ==> -Pi <= r <= Pi
    ensures -Pi <= radians <= Pi ==> r == radians
  {
    var a := if radians < -Pi then radians + TwoPi else radians;
    if a > Pi then a - TwoPi else a
  }

  /** Wrapping twice is wrapping once, on the inputs a single step handles. */
  lemma WrapIdempotent(degrees: real, radians: real)
    requires -540.0 <= degrees <= 540.0 && -3.0 * Pi <= radians <= 3.0 * Pi
    ensures WrapAngleDegrees(WrapAngleDegrees(degrees)) == WrapAngleDegrees(degrees)
    ensures WrapAngle(WrapAngle(radians)) == WrapAngle(radians)
  {
  }

  function Min(a: real, b: real): real { if a < b then a else b }
  function Max(a: real, b: real): real { if a < b then b else a }

  /** True iff `point` lies in the closed axis-aligned box spanned by the two
      end points, whichever way round they are given. */
  function PointWithinSegment(p1: Vec2, p2: Vec2, point: Vec2): (r: bool)
    ensures r <==> (Min(p1.X, p2.X) <= point.X <= Max(p1.X, p2.X)
                    && Min(p1.Y, p2.Y) <= point.Y <= Max(p1.Y, p2.Y))
  {
    if p1.X > p2.X && (point.X > p1.X || point.X < p2.X) then false
    else if p1.X <= p2.X && (point.X > p2.X || point.X < p1.X) then false
    else if p1.Y > p2.Y && (point.Y > p1.Y || point.Y < p2.Y) then false
    else if p1.Y <= p2.Y && (point.Y > p2.Y || point.Y < p1.Y) then false
    else true
  }

  /** The order of the end points does not matter. */
  lemma PointWithinSegmentSymmetric(p1: Vec2, p2: Vec2, point: Vec2)
    ensures PointWithinSegment(p1, p2, point) == PointWithinSegment(p2, p1, point)
    ensures PointWithinSegment(p1, p2, p1) && PointWithinSegment(p1, p2, p2)
  {
  }

  /** A colour with red, green, blue and alpha channels. */
  datatype Color = Color(R: real, G: real, B: real, A: real)

  /** The colour of hue `h` (degrees), saturation `s` and value `v`: grey
      when `s` is 0; otherwise the hue picks a sector of 60 degrees, sectors
      other than 0 to 4 taking the last case. */
  function HSVtoRGB(h: real, s: real, v: real): (c: Color)
    ensures s == 0.0 ==> c == Color(v, v, v, 1.0)
    ensures c.R == v || c.G == v || c.B == v
    ensures c.A == 1.0
  {
    if s == 0.0 then Color(v, v, v, 1.0)
    else
      var h' := h / 60.0;
      var f := h' - h'.Floor as real;
      Sector(h'.Floor, v, Scaled(v, 1.0 - s), Scaled(v, 1.0 - Scaled(s, f)), Scaled(v, 1.0 - Scaled(s, 1.0 - f)))
  }

  /** The product `a * b`, named so that its bounds are stated once. */
  function Scaled(a: real, b: real): real { a * b }

  /** Scaling by a factor in [0, 1] stays between 0 and the scaled value. */
  lemma ScaledWithin(a: real, b: real)
    requires 0.0 <= a && 0.0 <= b <= 1.0
    ensures 0.0 <= Scaled(a, b) <= a
  {
    assert a * b <= a * 1.0;
    assert a * 0.0 <= a * b;
  }

  /** The `switch` of `HSVtoRGB`: which of `v`, `p`, `q` and `t` goes to which
      channel in sector `i`. */
  function Sector(i: int, v: real, p: real, q: real, t: real): (c: Color)
    ensures c.R == v || c.G == v || c.B == v
    ensures c.A == 1.0
  {
    match i
    case 0 => Color(v, t, p, 1.0)
    case 1 => Color(q, v, p, 1.0)
    case 2 => Color(p, v, t, 1.0)
    case 3 => Color(p, q, v, 1.0)
    case 4 => Color(t, p, v, 1.0)
    case _ => Color(v, p, q, 1.0)
  }

  /** With saturation in [0, 1] and a non-negative value, every channel lies
      in [0, v]. */
  lemma HSVChannelsWithinValue(h: real, s: real, v: real)
    requires 0.0 <= s <= 1.0 && 0.0 <= v
    ensures var c := HSVtoRGB(h, s, v);
      0.0 <= c.R <= v && 0.0 <= c.G <= v && 0.0 <= c.B <= v
  {
    if s != 0.0 {
      var h' := h / 60.0;
      var f := h' - h'.Floor as real;
      ScaledWithin(s, f);
      ScaledWithin(s, 1.0 - f);
      ScaledWithin(v, 1.0 - s);
      ScaledWithin(v, 1.0 - Scaled(s, f));
      ScaledWithin(v, 1.0 - Scaled(s, 1.0 - f));
    }
  }

  /** The smallest positive single-precision value (`float.Epsilon`). */
  const FloatEpsilon: real := 1.401298e-45

  /** A ray: an origin and a direction. */
  datatype Ray = Ray(Position: Vector3, Direction: Vector3)

  /** The outcome of `RayIntersectsTriangle`: the distance along the ray to
      the hit (or none) and the barycentric coordinates of the hit. */
  datatype Hit = Hit(result: Option<real>, u: real, v: real)

  const Miss: Hit := Hit(None, 0.0, 0.0)

  /** Möller–Trumbore: no hit when the ray is parallel to the plane (the
      determinant within `float.Epsilon` of zero), when a barycentric
      coordinate leaves the triangle, or when the triangle is behind the
      origin. */
  function RayIntersectsTriangle(ray: Ray, vertex1: Vector3, vertex2: Vector3, vertex3: Vector3): (h: Hit)
    ensures h.result.Some? ==> 0.0 <= h.u && 0.0 <= h.v && h.u + h.v <= 1.0 && h.result.value >= 0.0
    ensures h.result.None? ==> h.u == 0.0 && h.v == 0.0
  {
    var edge1 := Minus(vertex2, vertex1);
    var edge2 := Minus(vertex3, vertex1);
    var directionCrossEdge2 := Cross(ray.Direction, edge2);
    var determinant := Dot(edge1, directionCrossEdge2);
    if -FloatEpsilon < determinant < FloatEpsilon then Miss
    else
      var inverseDeterminant := 1.0 / determinant;
      var distanceVector := Minus(ray.Position, vertex1);
      var triangleU := Dot(distanceVector, directionCrossEdge2) * inverseDeterminant;
      if triangleU < 0.0 || triangleU > 1.0 then Miss
      else
        var distanceCrossEdge1 := Cross(distanceVector, edge1);
        var triangleV := Dot(ray.Direction, distanceCrossEdge1) * inverseDeterminant;
        if triangleV < 0.0 || triangleU + triangleV > 1.0 then Miss
        else
          var rayDistance := Dot(edge2, distanceCrossEdge1) * inverseDeterminant;
          if rayDistance < 0.0 then Miss
          else Hit(Some(rayDistance), triangleU, triangleV)
  }

  /** Cramer's rule for one coordinate: `t` expressed in the basis of the two
      edges and the ray direction, scaled by the determinant `det`, with
      numerators `a`, `b` and `c`. */
  lemma CramerX(t: Vector3, e1: Vector3, e2: Vector3, d: Vector3, det: real, a: real, b: real, c: real)
    requires det == Dot(e1, Cross(d, e2)) && a == Dot(t, Cross(d, e2))
    requires b == Dot(d, Cross(t, e1)) && c == Dot(e2, Cross(t, e1))
    ensures det * t.X == a * e1.X + b * e2.X - c * d.X
  {
  }

  lemma CramerY(t: Vector3, e1: Vector3, e2: Vector3, d: Vector3, det: real, a: real, b: real, c: real)
    requires det == Dot(e1, Cross(d, e2)) && a == Dot(t, Cross(d, e2))
    requires b == Dot(d, Cross(t, e1)) && c == Dot(e2, Cross(t, e1))
    ensures det * t.Y == a * e1.Y + b * e2.Y - c * d.Y
  {
  }

  lemma CramerZ(t: Vector3, e1: Vector3, e2: Vector3, d: Vector3, det: real, a: real, b: real, c: real)
    requires det == Dot(e1, Cross(d, e2)) && a == Dot(t, Cross(d, e2))
    requires b == Dot(d, Cross(t, e1)) && c == Dot(e2, Cross(t, e1))
    ensures det * t.Z == a * e1.Z + b * e2.Z - c * d.Z
  {
  }

  /** Multiplying by the inverse determinant and then by the determinant
      gives back the numerator. */
  lemma Unscaled(x: real, det: real)
    requires det != 0.0
    ensures det * (x * (1.0 / det)) == x
  {
    assert det * (1.0 / det) == 1.0;
    assert det * (x * (1.0 / det)) == x * (det * (1.0 / det));
  }

  /** Dividing a relation `det * x == a * p + b * q - c * r` by `det`, where
      `det * u == a`, `det * v == b` and `det * s == c`. */
  lemma DivideOut(det: real, x: real, a: real, b: real, c: real, p: real, q: real, r: real, u: real, v: real, s: real)
    requires det != 0.0 && det * x == a * p + b * q - c * r
    requires det * u == a && det * v == b && det * s == c
    ensures x == p * u + q * v - r * s
  {
    var y := p * u + q * v - r * s;
    assert det * y == (det * u) * p + (det * v) * q - (det * s) * r;
    assert det * (x - y) == 0.0;
  }

  /** A reported hit is a point of the triangle's plane reached along the
      ray: origin + distance * direction == vertex1 + u * edge1 + v * edge2. */
  lemma HitLiesOnTriangle(ray: Ray, vertex1: Vector3, vertex2: Vector3, vertex3: Vector3)
    requires RayIntersectsTriangle(ray, vertex1, vertex2, vertex3).result.Some?
    ensures var h := RayIntersectsTriangle(ray, vertex1, vertex2, vertex3);
      Plus(ray.Position, Times(ray.Direction, h.result.value))
      == Plus(vertex1, Plus(Times(Minus(vertex2, vertex1), h.u), Times(Minus(vertex3, vertex1), h.v)))
  {
    var h := RayIntersectsTriangle(ray, vertex1, vertex2, vertex3);
    HitCoordinates(ray, vertex1, vertex2, vertex3);
    CoordinatesSolve(ray.Position, vertex1, Minus(ray.Position, vertex1), Minus(vertex2, vertex1), Minus(vertex3, vertex1),
                     ray.Direction, h.u, h.v, h.result.value);
  }

  /** What a hit reports, in terms of the edges and the ray: the determinant
      is not zero, and `u`, `v` and the distance are the three numerators of
      Cramer's rule divided by it. */
  lemma HitCoordinates(ray: Ray, vertex1: Vector3, vertex2: Vector3, vertex3: Vector3)
    requires RayIntersectsTriangle(ray, vertex1, vertex2, vertex3).result.Some?
    ensures var h := RayIntersectsTriangle(ray, vertex1, vertex2, vertex3);
      var e1, e2, d, t := Minus(vertex2, vertex1), Minus(vertex3, vertex1), ray.Direction, Minus(ray.Position, vertex1);
      var det := Dot(e1, Cross(d, e2));
      && det != 0.0
      && h.u == Dot(t, Cross(d, e2)) * (1.0 / det)
      && h.v == Dot(d, Cross(t, e1)) * (1.0 / det)
      && h.result.value == Dot(e2, Cross(t, e1)) * (1.0 / det)
  {
  }

  /** The quotients times the determinant are the numerators. */
  lemma Rescaled(t: Vector3, e1: Vector3, e2: Vector3, d: Vector3, u: real, v: real, s: real)
    requires Dot(e1, Cross(d, e2)) != 0.0
    requires u == Dot(t, Cross(d, e2)) * (1.0 / Dot(e1, Cross(d, e2)))
    requires v == Dot(d, Cross(t, e1)) * (1.0 / Dot(e1, Cross(d, e2)))
    requires s == Dot(e2, Cross(t, e1)) * (1.0 / Dot(e1, Cross(d, e2)))
    ensures Dot(e1, Cross(d, e2)) * u == Dot(t, Cross(d, e2))
    ensures Dot(e1, Cross(d, e2)) * v == Dot(d, Cross(t, e1))
    ensures Dot(e1, Cross(d, e2)) * s == Dot(e2, Cross(t, e1))
  {
    var det := Dot(e1, Cross(d, e2));
    Unscaled(Dot(t, Cross(d, e2)), det);
    Unscaled(Dot(d, Cross(t, e1)), det);
    Unscaled(Dot(e2, Cross(t, e1)), det);
  }

  /** Cramer's numerators divided by the determinant solve the ray and
      plane equation. */
  lemma CoordinatesSolve(o: Vector3, v1: Vector3, t: Vector3, e1: Vector3, e2: Vector3, d: Vector3,
                         u: real, v: real, s: real)
    requires t == Minus(o, v1) && Dot(e1, Cross(d, e2)) != 0.0
    requires u == Dot(t, Cross(d, e2)) * (1.0 / Dot(e1, Cross(d, e2)))
    requires v == Dot(d, Cross(t, e1)) * (1.0 / Dot(e1, Cross(d, e2)))
    requires s == Dot(e2, Cross(t, e1)) * (1.0 / Dot(e1, Cross(d, e2)))
    ensures Plus(o, Times(d, s)) == Plus(v1, Plus(Times(e1, u), Times(e2, v)))
  {
    Rescaled(t, e1, e2, d, u, v, s);
    SolveX(t, e1, e2, d, u, v, s);
    SolveY(t, e1, e2, d, u, v, s);
    SolveZ(t, e1, e2, d, u, v, s);
    OnPlane(o, v1, d, e1, e2, u, v, s);
  }

  /** One coordinate of the solution: Cramer's relation divided by the
      determinant. */
  lemma SolveX(t: Vector3, e1: Vector3, e2: Vector3, d: Vector3, u: real, v: real, s: real)
    requires Dot(e1, Cross(d, e2)) != 0.0
    requires Dot(e1, Cross(d, e2)) * u == Dot(t, Cross(d, e2))
    requires Dot(e1, Cross(d, e2)) * v == Dot(d, Cross(t, e1))
    requires Dot(e1, Cross(d, e2)) * s == Dot(e2, Cross(t, e1))
    ensures t.X == Times(e1, u).X + Times(e2, v).X - Times(d, s).X
  {
    var det, a, b, c := Dot(e1, Cross(d, e2)), Dot(t, Cross(d, e2)), Dot(d, Cross(t, e1)), Dot(e2, Cross(t, e1));
    CramerX(t, e1, e2, d, det, a, b, c);
    DivideOut(det, t.X, a, b, c, e1.X, e2.X, d.X, u, v, s);
  }

  lemma SolveY(t: Vector3, e1: Vector3, e2: Vector3, d: Vector3, u: real, v: real, s: real)
    requires Dot(e1, Cross(d, e2)) != 0.0
    requires Dot(e1, Cross(d, e2)) * u == Dot(t, Cross(d, e2))
    requires Dot(e1, Cross(d, e2)) * v == Dot(d, Cross(t, e1))
    requires Dot(e1, Cross(d, e2)) * s == Dot(e2, Cross(t, e1))
    ensures t.Y == Times(e1, u).Y + Times(e2, v).Y - Times(d, s).Y
  {
    var det, a, b, c := Dot(e1, Cross(d, e2)), Dot(t, Cross(d, e2)), Dot(d, Cross(t, e1)), Dot(e2, Cross(t, e1));
    CramerY(t, e1, e2, d, det, a, b, c);
    DivideOut(det, t.Y, a, b, c, e1.Y, e2.Y, d.Y, u, v, s);
  }

  lemma SolveZ(t: Vector3, e1: Vector3, e2: Vector3, d: Vector3, u: real, v: real, s: real)
    requires Dot(e1, Cross(d, e2)) != 0.0
    requires Dot(e1, Cross(d, e2)) * u == Dot(t, Cross(d, e2))
    requires Dot(e1, Cross(d, e2)) * v == Dot(d, Cross(t, e1))
    requires Dot(e1, Cross(d, e2)) * s == Dot(e2, Cross(t, e1))
    ensures t.Z == Times(e1, u).Z + Times(e2, v).Z - Times(d, s).Z
  {
    var det, a, b, c := Dot(e1, Cross(d, e2)), Dot(t, Cross(d, e2)), Dot(d, Cross(t, e1)), Dot(e2, Cross(t, e1));
    CramerZ(t, e1, e2, d, det, a, b, c);
    DivideOut(det, t.Z, a, b, c, e1.Z, e2.Z, d.Z, u, v, s);
  }

  /** The vector form of the three coordinate relations. */
  lemma OnPlane(o: Vector3, v1: Vector3, d: Vector3, e1: Vector3, e2: Vector3, u: real, v: real, s: real)
    requires o.X - v1.X == Times(e1, u).X + Times(e2, v).X - Times(d, s).X
    requires o.Y - v1.Y == Times(e1, u).Y + Times(e2, v).Y - Times(d, s).Y
    requires o.Z - v1.Z == Times(e1, u).Z + Times(e2, v).Z - Times(d, s).Z
    ensures Plus(o, Times(d, s)) == Plus(v1, Plus(Times(e1, u), Times(e2, v)))
  {
    var left, right := Plus(o, Times(d, s)), Plus(v1, Plus(Times(e1, u), Times(e2, v)));
    assert left.X == right.X && left.Y == right.Y && left.Z == right.Z;
  }
}
