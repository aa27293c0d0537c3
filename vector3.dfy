/** The 3-component vector `vector3`: the value operations (sum, difference, scaling,
    dot and cross products, projection, length, normalisation, angle queries) as
    functions on `Vec3`, and the in-place operators as methods of the class `Vector`. */
module Vector3 {
  import opened Libm
  import Constants

  datatype Vec3 = Vec3(x: real, y: real, z: real)

  const Zero: Vec3 := Vec3(0.0, 0.0, 0.0)

  // ---------------------------------------------------------------------------
  // Arithmetic (`+`, `-`, unary `-`, `* scalar`, dot `*`, cross `^`)
  // ---------------------------------------------------------------------------

  function Add(a: Vec3, b: Vec3): Vec3 {
    Vec3(a.x + b.x, a.y + b.y, a.z + b.z)
  }

  function Sub(a: Vec3, b: Vec3): Vec3 {
    Vec3(a.x - b.x, a.y - b.y, a.z - b.z)
  }

  function Neg(v: Vec3): Vec3 {
    Vec3(-v.x, -v.y, -v.z)
  }

  function Scale(v: Vec3, sc: real): Vec3 {
    Vec3(v.x * sc, v.y * sc, v.z * sc)
  }

  function Dot(a: Vec3, b: Vec3): real {
    a.x * b.x + a.y * b.y + a.z * b.z
  }

  function Cross(a: Vec3, b: Vec3): Vec3 {
    Vec3(a.y * b.z - a.z * b.y,
         a.z * b.x - a.x * b.z,
         a.x * b.y - a.y * b.x)
  }

  /** x*x + y*y + z*z, the argument `get_length` passes to sqrt */
  function LengthSquared(v: Vec3): real {
    Sq(v.x) + Sq(v.y) + Sq(v.z)
  }

  /** `get_length` */
  function Length(v: Vec3, lib: Libm): real {
    lib.sqrt(LengthSquared(v))
  }

  /** the squared length is non-negative, and zero only for the zero vector */
  lemma LengthSquaredSign(v: Vec3)
    ensures LengthSquared(v) >= 0.0
    ensures v == Zero ==> LengthSquared(v) == 0.0
    ensures v != Zero ==> LengthSquared(v) > 0.0
  {
    SquareNonNegative(v.x);
    SquareNonNegative(v.y);
    SquareNonNegative(v.z);
    if v.x != 0.0 {
      SquarePositive(v.x);
    } else if v.y != 0.0 {
      SquarePositive(v.y);
    } else if v.z != 0.0 {
      SquarePositive(v.z);
    }
  }

  /** the length is the non-negative square root of the squared length, positive exactly off the zero vector */
  lemma LengthFacts(v: Vec3, lib: Libm)
    requires lib.SqrtValid()
    ensures Length(v, lib) >= 0.0
    ensures Sq(Length(v, lib)) == LengthSquared(v)
    ensures v == Zero ==> Length(v, lib) == 0.0
    ensures v != Zero ==> Length(v, lib) > 0.0
  {
    assert Length(v, lib) >= 0.0 && Sq(Length(v, lib)) == LengthSquared(v) by {
      LengthSquaredSign(v);
    }
    assert v == Zero ==> Length(v, lib) == 0.0 by {
      LengthSquaredSign(v);
      lib.SqrtPositive(LengthSquared(v));
    }
    assert v != Zero ==> Length(v, lib) > 0.0 by {
      LengthSquaredSign(v);
      lib.SqrtPositive(LengthSquared(v));
    }
  }

  // ---------------------------------------------------------------------------
  // Projection `&`, normalisation, direction cosines, angle queries
  // ---------------------------------------------------------------------------

  /** `u & v`: the projection of u along v; the zero vector when v has no length */
  function Project(u: Vec3, v: Vec3, lib: Libm): Vec3 {
    var vl := Length(v, lib);
    if vl > 0.0 then
      SquarePositive(vl);
      Scale(v, Dot(u, v) / Sq(vl))
    else Zero
  }

  /** member `normalize()`: scaled by 1/length, or left alone when the length is not positive */
  function Normalized(v: Vec3, lib: Libm): Vec3 {
    var length := Length(v, lib);
    if length > 0.0 then Scale(v, 1.0 / length) else v
  }

  /** static `normalize(input)`: divides by the length, with no guard against zero */
  function NormalizeStatic(input: Vec3, lib: Libm): Vec3
    requires Length(input, lib) != 0.0
  {
    var len := Length(input, lib);
    Vec3(input.x / len, input.y / len, input.z / len)
  }

  /** `get_direction_cosines`: component / length, or (0, 0, 0) when the length is not positive */
  function DirectionCosines(v: Vec3, lib: Libm): Vec3 {
    var length := Length(v, lib);
    if length > 0.0 then Vec3(v.x / length, v.y / length, v.z / length) else Zero
  }

  /** `get_cos_angle_made_with`: 0 unless the product of the lengths is positive */
  function CosAngleWith(a: Vec3, b: Vec3, lib: Libm): real {
    var lengthMultiplication := Length(a, lib) * Length(b, lib);
    if lengthMultiplication > 0.0 then Dot(a, b) / lengthMultiplication else 0.0
  }

  /** `get_sin_angle_made_with`: 1 unless the product of the lengths is positive */
  function SinAngleWith(a: Vec3, b: Vec3, lib: Libm): real {
    var lengthMultiplication := Length(a, lib) * Length(b, lib);
    if lengthMultiplication > 0.0 then Length(Cross(a, b), lib) / lengthMultiplication else 1.0
  }

  /** `project_to_plane(pn)`: pn ^ (v ^ pn) */
  function ProjectedToPlane(v: Vec3, pn: Vec3): Vec3 {
    Cross(pn, Cross(v, pn))
  }

  // ---------------------------------------------------------------------------
  // Algebra used by the proofs below
  // ---------------------------------------------------------------------------

  lemma DotSelf(v: Vec3)
    ensures Dot(v, v) == LengthSquared(v)
  {
  }

  lemma DotOfScaled(v: Vec3, s: real, w: Vec3)
    ensures Dot(Scale(v, s), w) == s * Dot(v, w)
  {
  }

  lemma DotOfSub(a: Vec3, b: Vec3, w: Vec3)
    ensures Dot(Sub(a, b), w) == Dot(a, w) - Dot(b, w)
  {
  }

  lemma ScaledSquaredLength(v: Vec3, s: real)
    ensures LengthSquared(Scale(v, s)) == Sq(s) * LengthSquared(v)
  {
  }

  /** (d / q) * q == d */
  lemma CancelRatio(d: real, q: real)
    requires q != 0.0
    ensures (d / q) * q == d
  {
  }

  /** (s * q) / q == s */
  lemma CancelProduct(s: real, q: real)
    requires q != 0.0
    ensures (s * q) / q == s
  {
  }

  lemma SquareOfProduct(p: real, q: real)
    ensures Sq(p * q) == Sq(p) * Sq(q)
  {
  }

  lemma InverseSquared(len: real)
    requires len != 0.0
    ensures Sq(1.0 / len) * Sq(len) == 1.0
  {
    var inv := 1.0 / len;
    assert inv * len == 1.0;
    SquareOfProduct(inv, len);
  }

  lemma CancelFactor(t: real, q: real)
    requires q != 0.0 && t * q == q
    ensures t == 1.0
  {
    assert (t - 1.0) * q == 0.0;
  }

  lemma SumOfRatioSquares(d: real, c: real, m: real)
    requires m != 0.0 && Sq(d) + Sq(c) == Sq(m)
    ensures Sq(d / m) + Sq(c / m) == 1.0
  {
    var p, q := d / m, c / m;
    assert p * m == d;
    assert q * m == c;
    SquareOfProduct(p, m);
    SquareOfProduct(q, m);
    var t := Sq(p) + Sq(q);
    assert t * Sq(m) == Sq(d) + Sq(c);
    SquarePositive(m);
    CancelFactor(t, Sq(m));
  }

  // ---------------------------------------------------------------------------
  // Properties of the value operations
  // ---------------------------------------------------------------------------

  /** the cross product is orthogonal to both operands, anti-commutative, and vanishes on a vector with itself */
  lemma CrossOrthogonal(a: Vec3, b: Vec3)
    ensures Dot(Cross(a, b), a) == 0.0
    ensures Dot(Cross(a, b), b) == 0.0
    ensures Cross(a, a) == Zero
    ensures Cross(b, a) == Neg(Cross(a, b))
  {
  }

  /** Lagrange's identity: |a|^2 |b|^2 = (a.b)^2 + |a x b|^2 */
  lemma LagrangeIdentity(a: Vec3, b: Vec3)
    ensures LengthSquared(a) * LengthSquared(b) == Sq(Dot(a, b)) + LengthSquared(Cross(a, b))
  {
  }

  /** the projection is the zero vector along a zero v, and what is left of u after removing
      its projection on v is orthogonal to v, for every v */
  lemma ProjectionResidualOrthogonal(u: Vec3, v: Vec3, lib: Libm)
    requires lib.SqrtValid()
    ensures v == Zero ==> Project(u, v, lib) == Zero
    ensures Dot(Sub(u, Project(u, v, lib)), v) == 0.0
  {
    var vl := Length(v, lib);
    var p := Project(u, v, lib);
    if vl > 0.0 {
      assert v != Zero by {
        LengthFacts(v, lib);
      }
      assert Dot(Sub(u, p), v) == 0.0 by {
        DotOfSub(u, p, v);
        ProjectionAlong(u, v, lib);
      }
    } else {
      assert v == Zero by {
        LengthFacts(v, lib);
      }
      assert Dot(Sub(u, p), v) == 0.0 by {
        DotWithZero(Sub(u, p));
      }
    }
  }

  lemma DotWithZero(a: Vec3)
    ensures Dot(a, Zero) == 0.0
  {
  }

  /** along a v of positive length, the projection of u has the same dot product with v as u */
  lemma ProjectionAlong(u: Vec3, v: Vec3, lib: Libm)
    requires lib.SqrtValid() && Length(v, lib) > 0.0
    ensures Dot(Project(u, v, lib), v) == Dot(u, v)
  {
    var vl := Length(v, lib);
    var q := Sq(vl);
    assert q > 0.0 by {
      SquarePositive(vl);
    }
    var s := Dot(u, v) / q;
    assert Dot(v, v) == q by {
      DotSelf(v);
      LengthFacts(v, lib);
    }
    assert Dot(Scale(v, s), v) == s * q by {
      DotOfScaled(v, s, v);
    }
    CancelRatio(Dot(u, v), q);
  }

  /** the projection lies along v: projecting it again gives it back */
  lemma ProjectionIdempotent(u: Vec3, v: Vec3, lib: Libm)
    requires lib.SqrtValid()
    ensures Project(Project(u, v, lib), v, lib) == Project(u, v, lib)
  {
    var vl := Length(v, lib);
    if vl > 0.0 {
      var p := Project(u, v, lib);
      assert Dot(p, v) == Dot(u, v) by {
        ProjectionAlong(u, v, lib);
      }
    }
  }

  /** normalising leaves the zero vector alone and gives any other vector unit length */
  lemma NormalizedHasUnitLength(v: Vec3, lib: Libm)
    requires lib.SqrtValid()
    ensures v == Zero ==> Normalized(v, lib) == Zero
    ensures v != Zero ==> Length(Normalized(v, lib), lib) == 1.0
  {
    LengthFacts(v, lib);
    if v != Zero {
      var len := Length(v, lib);
      ScaledSquaredLength(v, 1.0 / len);
      InverseSquared(len);
      assert LengthSquared(Normalized(v, lib)) == 1.0;
      lib.SqrtOfSquare(1.0);
    }
  }

  /** the static normalize agrees with the member one wherever it is defined, so it also has unit length */
  lemma NormalizeStaticAgrees(v: Vec3, lib: Libm)
    requires lib.SqrtValid() && v != Zero
    ensures Length(v, lib) != 0.0
    ensures NormalizeStatic(v, lib) == Normalized(v, lib)
    ensures Length(NormalizeStatic(v, lib), lib) == 1.0
  {
    LengthFacts(v, lib);
    NormalizedHasUnitLength(v, lib);
  }

  /** the direction cosines are (0, 0, 0) for the zero vector, and otherwise the normalised vector,
      so their squares sum to 1 */
  lemma DirectionCosinesAreNormalized(v: Vec3, lib: Libm)
    requires lib.SqrtValid()
    ensures v == Zero ==> DirectionCosines(v, lib) == Zero
    ensures v != Zero ==> DirectionCosines(v, lib) == Normalized(v, lib)
    ensures v != Zero ==> LengthSquared(DirectionCosines(v, lib)) == 1.0
  {
    LengthFacts(v, lib);
    NormalizedHasUnitLength(v, lib);
    if v != Zero {
      var n := Normalized(v, lib);
      LengthFacts(n, lib);
    }
  }

  /** a zero-length operand gives cosine 0 and sine 1 */
  lemma AngleFallbacks(a: Vec3, b: Vec3, lib: Libm)
    requires lib.SqrtValid()
    requires a == Zero || b == Zero
    ensures CosAngleWith(a, b, lib) == 0.0
    ensures SinAngleWith(a, b, lib) == 1.0
  {
    if a == Zero {
      assert CosAngleWith(a, b, lib) == 0.0 && SinAngleWith(a, b, lib) == 1.0 by {
        assert Length(a, lib) == 0.0 by {
          LengthFacts(a, lib);
        }
      }
    } else {
      assert CosAngleWith(a, b, lib) == 0.0 && SinAngleWith(a, b, lib) == 1.0 by {
        assert Length(b, lib) == 0.0 by {
          LengthFacts(b, lib);
        }
      }
    }
  }

  lemma ProductPositive(p: real, q: real)
    requires p > 0.0 && q > 0.0
    ensures p * q > 0.0
  {
    var pq := p * q;
    assert pq > 0.0 * q;
  }

  /** for two non-zero vectors the cosine and sine of the angle between them satisfy cos^2 + sin^2 = 1 */
  lemma AngleCosSinPythagorean(a: Vec3, b: Vec3, lib: Libm)
    requires lib.SqrtValid()
    requires a != Zero && b != Zero
    ensures Sq(CosAngleWith(a, b, lib)) + Sq(SinAngleWith(a, b, lib)) == 1.0
  {
    NonZeroLengthRatios(a, b, lib);
    AngleRatios(a, b, lib);
  }

  lemma NonZeroLengthRatios(a: Vec3, b: Vec3, lib: Libm)
    requires lib.SqrtValid()
    requires a != Zero && b != Zero
    ensures Length(a, lib) * Length(b, lib) > 0.0
    ensures Sq(Dot(a, b) / (Length(a, lib) * Length(b, lib))) + Sq(Length(Cross(a, b), lib) / (Length(a, lib) * Length(b, lib))) == 1.0
  {
    assert Length(a, lib) > 0.0 && Sq(Length(a, lib)) == LengthSquared(a) by {
      LengthFacts(a, lib);
    }
    assert Length(b, lib) > 0.0 && Sq(Length(b, lib)) == LengthSquared(b) by {
      LengthFacts(b, lib);
    }
    assert Sq(Length(Cross(a, b), lib)) == LengthSquared(Cross(a, b)) by {
      LengthFacts(Cross(a, b), lib);
    }
    assert LengthSquared(a) * LengthSquared(b) == Sq(Dot(a, b)) + LengthSquared(Cross(a, b)) by {
      LagrangeIdentity(a, b);
    }
    LengthRatiosPythagorean(a, b, lib);
    ProductPositive(Length(a, lib), Length(b, lib));
  }

  lemma LengthRatiosPythagorean(a: Vec3, b: Vec3, lib: Libm)
    requires Length(a, lib) > 0.0 && Sq(Length(a, lib)) == LengthSquared(a)
    requires Length(b, lib) > 0.0 && Sq(Length(b, lib)) == LengthSquared(b)
    requires Sq(Length(Cross(a, b), lib)) == LengthSquared(Cross(a, b))
    requires LengthSquared(a) * LengthSquared(b) == Sq(Dot(a, b)) + LengthSquared(Cross(a, b))
    ensures Sq(Dot(a, b) / (Length(a, lib) * Length(b, lib))) + Sq(Length(Cross(a, b), lib) / (Length(a, lib) * Length(b, lib))) == 1.0
  {
    RatioPythagoras(Dot(a, b), Length(a, lib), Length(b, lib), Length(Cross(a, b), lib),
      LengthSquared(a), LengthSquared(b), LengthSquared(Cross(a, b)));
  }

  /** with |a| = la, |b| = lb, |a x b| = lc and Lagrange's identity, (d/(la lb))^2 + (lc/(la lb))^2 = 1 */
  lemma RatioPythagoras(d: real, la: real, lb: real, lc: real, sa: real, sb: real, sc: real)
    requires la > 0.0 && lb > 0.0
    requires Sq(la) == sa && Sq(lb) == sb && Sq(lc) == sc
    requires sa * sb == Sq(d) + sc
    ensures Sq(d / (la * lb)) + Sq(lc / (la * lb)) == 1.0
  {
    var m := la * lb;
    ProductPositive(la, lb);
    SquareOfProduct(la, lb);
    assert Sq(m) == sa * sb;
    SumOfRatioSquares(d, lc, m);
  }

  lemma AngleRatios(a: Vec3, b: Vec3, lib: Libm)
    requires Length(a, lib) * Length(b, lib) > 0.0
    ensures CosAngleWith(a, b, lib) == Dot(a, b) / (Length(a, lib) * Length(b, lib))
    ensures SinAngleWith(a, b, lib) == Length(Cross(a, b), lib) / (Length(a, lib) * Length(b, lib))
  {
  }

  /** projecting to the plane of pn gives a vector orthogonal to pn (and to v ^ pn) */
  lemma ProjectedToPlaneOrthogonal(v: Vec3, pn: Vec3)
    ensures Dot(ProjectedToPlane(v, pn), pn) == 0.0
    ensures Dot(ProjectedToPlane(v, pn), Cross(v, pn)) == 0.0
  {
    CrossOrthogonal(pn, Cross(v, pn));
  }

  // ---------------------------------------------------------------------------
  // Equality `==`
  // ---------------------------------------------------------------------------

  const VectorEpsilon: real := 0.001

  /** `==` as written: only the largest SIGNED component difference is compared with the tolerance */
  predicate ApproxEqual(a: Vec3, b: Vec3) {
    var d := Constants.Max(a.x - b.x, Constants.Max(a.y - b.y, a.z - b.z));
    !(d > VectorEpsilon || d < -VectorEpsilon)
  }

  /** `==` as written holds exactly when no component of a exceeds that of b by more than the
      tolerance and at least one component is not below it by more than the tolerance */
  lemma ApproxEqualMeaning(a: Vec3, b: Vec3)
    ensures ApproxEqual(a, b) <==>
      && a.x - b.x <= VectorEpsilon && a.y - b.y <= VectorEpsilon && a.z - b.z <= VectorEpsilon
      && (a.x - b.x >= -VectorEpsilon || a.y - b.y >= -VectorEpsilon || a.z - b.z >= -VectorEpsilon)
  {
  }

  /** so `==` as written is not symmetric: (0,0,0) == (5,0,0) holds, (5,0,0) == (0,0,0) does not */
  lemma ApproxEqualAsymmetric()
    ensures ApproxEqual(Zero, Vec3(5.0, 0.0, 0.0))
    ensures !ApproxEqual(Vec3(5.0, 0.0, 0.0), Zero)
  {
  }

  /** the evidently intended `==`: every component within the tolerance */
  predicate ApproxEqualCorrected(a: Vec3, b: Vec3) {
    var d := Constants.Max(Constants.Abs(a.x - b.x), Constants.Max(Constants.Abs(a.y - b.y), Constants.Abs(a.z - b.z)));
    !(d > VectorEpsilon)
  }

  /** the corrected comparison is the per-component tolerance test, hence symmetric and reflexive */
  lemma ApproxEqualCorrectedIsComponentwise(a: Vec3, b: Vec3)
    ensures ApproxEqualCorrected(a, b) <==>
      (Constants.Abs(a.x - b.x) <= VectorEpsilon && Constants.Abs(a.y - b.y) <= VectorEpsilon && Constants.Abs(a.z - b.z) <= VectorEpsilon)
    ensures ApproxEqualCorrected(a, b) <==> ApproxEqualCorrected(b, a)
    ensures ApproxEqualCorrected(a, a)
    ensures ApproxEqualCorrected(a, b) ==> ApproxEqual(a, b) && ApproxEqual(b, a)
  {
  }

  // ---------------------------------------------------------------------------
  // The in-place operators
  // ---------------------------------------------------------------------------

  /** a `vector3` object whose components the compound operators overwrite */
  class Vector {
    var x: real
    var y: real
    var z: real

    function Value(): Vec3
      reads this
    {
      Vec3(x, y, z)
    }

    /** the default constructor zero-initialises */
    constructor ()
      ensures Value() == Zero
    {
      x, y, z := 0.0, 0.0, 0.0;
    }

    constructor FromComponents(x: real, y: real, z: real)
      ensures Value() == Vec3(x, y, z)
    {
      this.x, this.y, this.z := x, y, z;
    }

    method Set(x: real, y: real, z: real)
      modifies this
      ensures Value() == Vec3(x, y, z)
    {
      this.x := x;
      this.y := y;
      this.z := z;
    }

    /** `+=`; rhs may be this vector itself */
    method AddAssign(rhs: Vector)
      modifies this
      ensures Value() == Add(old(Value()), old(rhs.Value()))
    {
      x := x + rhs.x;
      y := y + rhs.y;
      z := z + rhs.z;
    }

    /** `-=`; rhs may be this vector itself */
    method SubAssign(rhs: Vector)
      modifies this
      ensures Value() == Sub(old(Value()), old(rhs.Value()))
    {
      x := x - rhs.x;
      y := y - rhs.y;
      z := z - rhs.z;
    }

    /** `negate()` */
    method Negate()
      modifies this
      ensures Value() == Neg(old(Value()))
    {
      x := -x;
      y := -y;
      z := -z;
    }

    /** `*= scalar` */
    method ScaleAssign(sc: real)
      modifies this
      ensures Value() == Scale(old(Value()), sc)
    {
      x := x * sc;
      y := y * sc;
      z := z * sc;
    }

    /** `^=`: the three components go through temporaries, so `v ^= v` yields the zero vector */
    method CrossAssign(rhs: Vector)
      modifies this
      ensures Value() == Cross(old(Value()), old(rhs.Value()))
      ensures rhs == this ==> Value() == Zero
    {
      var tempx := y * rhs.z - z * rhs.y;
      var tempy := z * rhs.x - x * rhs.z;
      var tempz := x * rhs.y - y * rhs.x;
      x := tempx;
      y := tempy;
      z := tempz;
    }

    /** `&=`: this vector becomes its projection along rhs */
    method ProjectAssign(rhs: Vector, lib: Libm)
      modifies this
      ensures Value() == Project(old(Value()), old(rhs.Value()), lib)
    {
      var u := Value();
      var v := rhs.Value();
      var vl := Length(v, lib);
      if vl > 0.0 {
        SquarePositive(vl);
        var s := Dot(u, v) / Sq(vl);
        var w := Scale(v, s);
        x, y, z := w.x, w.y, w.z;
      } else {
        x := 0.0;
        y := 0.0;
        z := 0.0;
      }
    }

    /** `normalize()` */
    method Normalize(lib: Libm)
      modifies this
      ensures Value() == Normalized(old(Value()), lib)
    {
      var length := Length(Value(), lib);
      if length > 0.0 {
        var invLength := 1.0 / length;
        x := x * invLength;
        y := y * invLength;
        z := z * invLength;
      }
    }

    /** `project_to_plane(pn)`; pn may be this vector itself */
    method ProjectToPlane(pn: Vector)
      modifies this
      ensures Value() == ProjectedToPlane(old(Value()), old(pn.Value()))
    {
      var r := Cross(pn.Value(), Cross(Value(), pn.Value()));
      x, y, z := r.x, r.y, r.z;
    }
  }
}
