/** Double-precision 3D positions (Willow/Position.cs), modelled over `real`.
    `Position3` is a C# struct: its operators return new values and are the
    functions below; its mutating members (`Add`, `Subtract`, `SubtractFrom`,
    `Transform`, ...) change the struct where it is stored, which is modelled
    by the class `PositionCell`. XNA's single-precision `Vector3` and
    `Vector2` are modelled by the same real triples and pairs. */
module Positions {

  datatype Position3 = Position3(X: real, Y: real, Z: real)

  /** XNA's `Vector3` carries the same three components (in single precision). */
  type Vector3 = Position3

  datatype Vec2 = Vec2(X: real, Y: real)

  /** A 4x4 row-major matrix, as XNA's `Matrix` (M11 .. M44). */
  datatype Matrix = Matrix(
    M11: real, M12: real, M13: real, M14: real,
    M21: real, M22: real, M23: real, M24: real,
    M31: real, M32: real, M33: real, M34: real,
    M41: real, M42: real, M43: real, M44: real)

  const Zero: Position3 := Position3(0.0, 0.0, 0.0)
  const Zero2: Vec2 := Vec2(0.0, 0.0)

  /** `new Position3(value)`: all three components set to one value. */
  function Uniform(value: real): Position3 { Position3(value, value, value) }

  // ---- comparison operators ----

  /** `operator ==`: componentwise equality. */
  predicate Equal(v1: Position3, v2: Position3) {
    v1.X == v2.X && v1.Y == v2.Y && v1.Z == v2.Z
  }

  /** `operator !=`, written out separately in the source. */
  predicate NotEqual(v1: Position3, v2: Position3) {
    v1.X != v2.X || v1.Y != v2.Y || v1.Z != v2.Z
  }

  lemma EqualityOperators(v1: Position3, v2: Position3)
    ensures NotEqual(v1, v2) == !Equal(v1, v2)
    ensures Equal(v1, v2) <==> v1 == v2
  {
  }

  // ---- arithmetic operators ----

  function Plus(v1: Position3, v2: Position3): Position3 {
    Position3(v1.X + v2.X, v1.Y + v2.Y, v1.Z + v2.Z)
  }

  function PlusScalar(v1: Position3, scalar: real): Position3 {
    Position3(v1.X + scalar, v1.Y + scalar, v1.Z + scalar)
  }

  function Negate(v1: Position3): Position3 {
    Position3(-v1.X, -v1.Y, -v1.Z)
  }

  function Minus(v1: Position3, v2: Position3): Position3 {
    Position3(v1.X - v2.X, v1.Y - v2.Y, v1.Z - v2.Z)
  }

  function MinusScalar(v1: Position3, scalar: real): Position3 {
    Position3(v1.X - scalar, v1.Y - scalar, v1.Z - scalar)
  }

  /** `operator *(Position3, double)`. */
  function Times(v1: Position3, scalar: real): Position3 {
    Position3(v1.X * scalar, v1.Y * scalar, v1.Z * scalar)
  }

  /** `operator *(double, Position3)`. */
  function ScalarTimes(scalar: real, v1: Position3): Position3 {
    Position3(v1.X * scalar, v1.Y * scalar, v1.Z * scalar)
  }

  /** Componentwise product, XNA's `Vector3 * Vector3`. */
  function Modulate(v1: Vector3, v2: Vector3): Vector3 {
    Position3(v1.X * v2.X, v1.Y * v2.Y, v1.Z * v2.Z)
  }

  /** `operator /(Position3, double)`. */
  function Over(v1: Position3, scalar: real): Position3
    requires scalar != 0.0
  {
    Position3(v1.X / scalar, v1.Y / scalar, v1.Z / scalar)
  }

  /** `operator /(double, Position3)`: the source divides the vector by the
      scalar here too, so the operand order does not matter. */
  function ScalarOver(scalar: real, v1: Position3): Position3
    requires scalar != 0.0
  {
    Position3(v1.X / scalar, v1.Y / scalar, v1.Z / scalar)
  }

  function Dot(v1: Position3, v2: Position3): real {
    v1.X * v2.X + v1.Y * v2.Y + v1.Z * v2.Z
  }

  function Cross(v1: Position3, v2: Position3): Position3 {
    Position3(v1.Y * v2.Z - v1.Z * v2.Y,
              v1.Z * v2.X - v1.X * v2.Z,
              v1.X * v2.Y - v1.Y * v2.X)
  }

  /** Width of the band around zero in which `Transform` treats W as zero. */
  const TransformEpsilon: real := 1.0e-5

  /** One row of the homogeneous product: `p.X * a + p.Y * b + p.Z * c + d`. */
  function Row(p: Position3, a: real, b: real, c: real, d: real): real {
    p.X * a + p.Y * b + p.Z * c + d
  }

  /** `Transform(Matrix)`: multiply by the matrix in homogeneous coordinates
      and divide by W, or give the zero vector when W is within
      `TransformEpsilon` of zero. */
  function Transformed(p: Position3, m: Matrix): Position3 {
    var w := Row(p, m.M14, m.M24, m.M34, m.M44);
    if -TransformEpsilon < w < TransformEpsilon then Zero
    else Position3(Row(p, m.M11, m.M21, m.M31, m.M41) / w,
                   Row(p, m.M12, m.M22, m.M32, m.M42) / w,
                   Row(p, m.M13, m.M23, m.M33, m.M43) / w)
  }

  /** Outside the epsilon band around W = 0 the transformed point, scaled
      back by W, is the matrix product; inside it the result is the origin. */
  lemma TransformedDividesByW(p: Position3, m: Matrix)
    ensures var r, w := Transformed(p, m), Row(p, m.M14, m.M24, m.M34, m.M44);
            && (-TransformEpsilon < w < TransformEpsilon ==> r == Zero)
            && (!(-TransformEpsilon < w < TransformEpsilon) ==>
                  && r.X * w == Row(p, m.M11, m.M21, m.M31, m.M41)
                  && r.Y * w == Row(p, m.M12, m.M22, m.M32, m.M42)
                  && r.Z * w == Row(p, m.M13, m.M23, m.M33, m.M43))
  {
    var w := Row(p, m.M14, m.M24, m.M34, m.M44);
    if !(-TransformEpsilon < w < TransformEpsilon) {
      QuotientTimes(Row(p, m.M11, m.M21, m.M31, m.M41), w);
      QuotientTimes(Row(p, m.M12, m.M22, m.M32, m.M42), w);
      QuotientTimes(Row(p, m.M13, m.M23, m.M33, m.M43), w);
    }
  }

  lemma QuotientTimes(a: real, w: real)
    requires w != 0.0
    ensures (a / w) * w == a
  {
  }

  // ---- algebraic facts about the operators ----

  /** Adding and then subtracting the same vector is the identity. */
  lemma PlusMinusRoundTrip(a: Position3, b: Position3)
    ensures Minus(Plus(a, b), b) == a
    ensures Plus(Minus(a, b), b) == a
  {
  }

  lemma DotSymmetric(a: Position3, b: Position3)
    ensures Dot(a, b) == Dot(b, a)
  {
  }

  /** The cross product is perpendicular to both of its operands. */
  lemma CrossOrthogonal(a: Position3, b: Position3)
    ensures Dot(Cross(a, b), a) == 0.0
    ensures Dot(Cross(a, b), b) == 0.0
  {
    calc {
      Dot(Cross(a, b), a);
      (a.Y * b.Z - a.Z * b.Y) * a.X + (a.Z * b.X - a.X * b.Z) * a.Y + (a.X * b.Y - a.Y * b.X) * a.Z;
      (a.X * a.Y * b.Z - a.X * a.Z * b.Y) + (a.Y * a.Z * b.X - a.X * a.Y * b.Z) + (a.X * a.Z * b.Y - a.Y * a.Z * b.X);
      0.0;
    }
    calc {
      Dot(Cross(a, b), b);
      (a.Y * b.Z - a.Z * b.Y) * b.X + (a.Z * b.X - a.X * b.Z) * b.Y + (a.X * b.Y - a.Y * b.X) * b.Z;
      (a.Y * b.X * b.Z - a.Z * b.X * b.Y) + (a.Z * b.X * b.Y - a.X * b.Y * b.Z) + (a.X * b.Y * b.Z - a.Y * b.X * b.Z);
      0.0;
    }
  }

  lemma CrossAntisymmetric(a: Position3, b: Position3)
    ensures Cross(a, b) == Negate(Cross(b, a))
    ensures Cross(a, a) == Zero
  {
  }

  /** Both division operators give the same vector. */
  lemma DivisionOperatorsAgree(scalar: real, v: Position3)
    requires scalar != 0.0
    ensures ScalarOver(scalar, v) == Over(v, scalar)
    ensures Times(ScalarOver(scalar, v), scalar) == v
  {
  }

  lemma MultiplicationOperatorsAgree(scalar: real, v: Position3)
    ensures ScalarTimes(scalar, v) == Times(v, scalar)
  {
  }

  /** Storage for a `Position3` value whose mutating members change it in place. */
  class PositionCell {
    var X: real
    var Y: real
    var Z: real

    function Value(): Position3
      reads this
    {
      Position3(X, Y, Z)
    }

    constructor (v: Position3)
      ensures Value() == v
    {
      X, Y, Z := v.X, v.Y, v.Z;
    }

    method Clear()
      modifies this
      ensures Value() == Zero
    {
      X, Y, Z := 0.0, 0.0, 0.0;
    }

    /** `Add(double)`. */
    method AddScalar(scalar: real)
      modifies this
      ensures Value() == PlusScalar(old(Value()), scalar)
    {
      X := X + scalar;
      Y := Y + scalar;
      Z := Z + scalar;
    }

    /** `Add(Position3)` and `Add(Vector3)`: the same value as `this + v1`. */
    method Add(v1: Position3)
      modifies this
      ensures Value() == Plus(old(Value()), v1)
    {
      X := X + v1.X;
      Y := Y + v1.Y;
      Z := Z + v1.Z;
    }

    /** `Subtract(double)`. */
    method SubtractScalar(scalar: real)
      modifies this
      ensures Value() == MinusScalar(old(Value()), scalar)
    {
      X := X - scalar;
      Y := Y - scalar;
      Z := Z - scalar;
    }

    /** `Subtract(Position3)` and `Subtract(ref Position3)`. */
    method Subtract(v1: Position3)
      modifies this
      ensures Value() == Minus(old(Value()), v1)
    {
      X := X - v1.X;
      Y := Y - v1.Y;
      Z := Z - v1.Z;
    }

    method Multiply(scalar: real)
      modifies this
      ensures Value() == Times(old(Value()), scalar)
    {
      X := X * scalar;
      Y := Y * scalar;
      Z := Z * scalar;
    }

    method Divide(scalar: real)
      requires scalar != 0.0
      modifies this
      ensures Value() == Over(old(Value()), scalar)
    {
      X := X / scalar;
      Y := Y / scalar;
      Z := Z / scalar;
    }

    /** `SubtractFrom(ref V1)`: the stored value becomes `v1 - this`. */
    method SubtractFrom(v1: Position3)
      modifies this
      ensures Value() == Minus(v1, old(Value()))
      ensures Plus(Value(), old(Value())) == v1
    {
      X := v1.X - X;
      Y := v1.Y - Y;
      Z := v1.Z - Z;
    }

    /** `Add(v1, v2)` and `Add(ref v1, ref v2)`: overwrite with the sum. */
    method AddPair(v1: Position3, v2: Position3)
      modifies this
      ensures Value() == Plus(v1, v2)
    {
      X := v1.X + v2.X;
      Y := v1.Y + v2.Y;
      Z := v1.Z + v2.Z;
    }

    /** `Subtract(ref v1, ref v2)`: overwrite with the difference. */
    method SubtractPair(v1: Position3, v2: Position3)
      modifies this
      ensures Value() == Minus(v1, v2)
    {
      X := v1.X - v2.X;
      Y := v1.Y - v2.Y;
      Z := v1.Z - v2.Z;
    }

    /** `Transform(Matrix)` and `Transform(ref Matrix)`, in place. */
    method Transform(m: Matrix)
      modifies this
      ensures Value() == Transformed(old(Value()), m)
    {
      var p := Value();
      var w := Row(p, m.M14, m.M24, m.M34, m.M44);
      if w > -TransformEpsilon && w < TransformEpsilon {
        X, Y, Z := 0.0, 0.0, 0.0;
      } else {
        X, Y, Z := Row(p, m.M11, m.M21, m.M31, m.M41) / w,
                   Row(p, m.M12, m.M22, m.M32, m.M42) / w,
                   Row(p, m.M13, m.M23, m.M33, m.M43) / w;
      }
    }
  }
}
