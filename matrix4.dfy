/** The 4x4 matrix `matrix4`: the value operations (sum, scaling, product, minors, adjugate,
    determinant, inverse, transpose, trace, the rotation / perspective / ortho builders,
    translation and point transformation) as functions on `Mat4`, and the operators that
    overwrite the 16-entry array in place as methods of the class `Matrix`. */
module Matrix4 {
  import opened Libm
  import opened Vector3
  import Constants

  /** the entries `matrix[r][c]`, row-major: field mRC is row R, column C */
  datatype Mat4 = Mat4(
    m00: real, m01: real, m02: real, m03: real,
    m10: real, m11: real, m12: real, m13: real,
    m20: real, m21: real, m22: real, m23: real,
    m30: real, m31: real, m32: real, m33: real)

  /** `matrix[i][j]` (`get_coefficient`) */
  function At(m: Mat4, i: nat, j: nat): real
    requires i < 4 && j < 4
  {
    if i == 0 then (if j == 0 then m.m00 else if j == 1 then m.m01 else if j == 2 then m.m02 else m.m03)
    else if i == 1 then (if j == 0 then m.m10 else if j == 1 then m.m11 else if j == 2 then m.m12 else m.m13)
    else if i == 2 then (if j == 0 then m.m20 else if j == 1 then m.m21 else if j == 2 then m.m22 else m.m23)
    else (if j == 0 then m.m30 else if j == 1 then m.m31 else if j == 2 then m.m32 else m.m33)
  }

  /** the matrix that agrees with m everywhere except at (i, j), where it holds val */
  function With(m: Mat4, i: nat, j: nat, val: real): (r: Mat4)
    requires i < 4 && j < 4
    ensures At(r, i, j) == val
    ensures forall k, l | 0 <= k < 4 && 0 <= l < 4 && (k != i || l != j) :: At(r, k, l) == At(m, k, l)
  {
    if i == 0 then (if j == 0 then m.(m00 := val) else if j == 1 then m.(m01 := val) else if j == 2 then m.(m02 := val) else m.(m03 := val))
    else if i == 1 then (if j == 0 then m.(m10 := val) else if j == 1 then m.(m11 := val) else if j == 2 then m.(m12 := val) else m.(m13 := val))
    else if i == 2 then (if j == 0 then m.(m20 := val) else if j == 1 then m.(m21 := val) else if j == 2 then m.(m22 := val) else m.(m23 := val))
    else (if j == 0 then m.(m30 := val) else if j == 1 then m.(m31 := val) else if j == 2 then m.(m32 := val) else m.(m33 := val))
  }

  /** two matrices with the same 16 entries are the same matrix */
  lemma Extensionality(a: Mat4, b: Mat4)
    requires forall i, j | 0 <= i < 4 && 0 <= j < 4 :: At(a, i, j) == At(b, i, j)
    ensures a == b
  {
    assert At(a, 0, 0) == At(b, 0, 0) && At(a, 0, 1) == At(b, 0, 1) && At(a, 0, 2) == At(b, 0, 2) && At(a, 0, 3) == At(b, 0, 3);
    assert At(a, 1, 0) == At(b, 1, 0) && At(a, 1, 1) == At(b, 1, 1) && At(a, 1, 2) == At(b, 1, 2) && At(a, 1, 3) == At(b, 1, 3);
    assert At(a, 2, 0) == At(b, 2, 0) && At(a, 2, 1) == At(b, 2, 1) && At(a, 2, 2) == At(b, 2, 2) && At(a, 2, 3) == At(b, 2, 3);
    assert At(a, 3, 0) == At(b, 3, 0) && At(a, 3, 1) == At(b, 3, 1) && At(a, 3, 2) == At(b, 3, 2) && At(a, 3, 3) == At(b, 3, 3);
  }

  // ---------------------------------------------------------------------------
  // Construction and the arithmetic operators
  // ---------------------------------------------------------------------------

  /** the matrix the default constructor builds (and `matrix4::identity`) */
  const Identity: Mat4 := Mat4(
    1.0, 0.0, 0.0, 0.0,
    0.0, 1.0, 0.0, 0.0,
    0.0, 0.0, 1.0, 0.0,
    0.0, 0.0, 0.0, 1.0)

  /** the identity has ones on the diagonal and zeros elsewhere */
  lemma IdentityEntries()
    ensures forall i, j | 0 <= i < 4 && 0 <= j < 4 :: At(Identity, i, j) == if i == j then 1.0 else 0.0
  {
  }

  /** `+` */
  function Sum(a: Mat4, b: Mat4): Mat4 {
    Mat4(
      a.m00 + b.m00, a.m01 + b.m01, a.m02 + b.m02, a.m03 + b.m03,
      a.m10 + b.m10, a.m11 + b.m11, a.m12 + b.m12, a.m13 + b.m13,
      a.m20 + b.m20, a.m21 + b.m21, a.m22 + b.m22, a.m23 + b.m23,
      a.m30 + b.m30, a.m31 + b.m31, a.m32 + b.m32, a.m33 + b.m33)
  }

  /** one entry of `* scalar`: the entry times the scalar. The lemmas about scaled matrices
      name the product through this function, so every one of them speaks of the same term */
  function Scaled(r: real, s: real): real {
    r * s
  }

  /** `* scalar` */
  function ScaleBy(a: Mat4, s: real): Mat4 {
    Mat4(
      Scaled(a.m00, s), Scaled(a.m01, s), Scaled(a.m02, s), Scaled(a.m03, s),
      Scaled(a.m10, s), Scaled(a.m11, s), Scaled(a.m12, s), Scaled(a.m13, s),
      Scaled(a.m20, s), Scaled(a.m21, s), Scaled(a.m22, s), Scaled(a.m23, s),
      Scaled(a.m30, s), Scaled(a.m31, s), Scaled(a.m32, s), Scaled(a.m33, s))
  }

  /** one entry of a matrix product: the row (r0, r1, r2, r3) times the column (c0, c1, c2, c3) */
  function RowTimesColumn(r0: real, r1: real, r2: real, r3: real, c0: real, c1: real, c2: real, c3: real): real {
    r0 * c0 + r1 * c1 + r2 * c2 + r3 * c3
  }

  /** `* matrix`: entry (i, j) is row i of a times column j of b */
  function Mul(a: Mat4, b: Mat4): Mat4 {
    Mat4(
      RowTimesColumn(a.m00, a.m01, a.m02, a.m03, b.m00, b.m10, b.m20, b.m30),
      RowTimesColumn(a.m00, a.m01, a.m02, a.m03, b.m01, b.m11, b.m21, b.m31),
      RowTimesColumn(a.m00, a.m01, a.m02, a.m03, b.m02, b.m12, b.m22, b.m32),
      RowTimesColumn(a.m00, a.m01, a.m02, a.m03, b.m03, b.m13, b.m23, b.m33),

      RowTimesColumn(a.m10, a.m11, a.m12, a.m13, b.m00, b.m10, b.m20, b.m30),
      RowTimesColumn(a.m10, a.m11, a.m12, a.m13, b.m01, b.m11, b.m21, b.m31),
      RowTimesColumn(a.m10, a.m11, a.m12, a.m13, b.m02, b.m12, b.m22, b.m32),
      RowTimesColumn(a.m10, a.m11, a.m12, a.m13, b.m03, b.m13, b.m23, b.m33),

      RowTimesColumn(a.m20, a.m21, a.m22, a.m23, b.m00, b.m10, b.m20, b.m30),
      RowTimesColumn(a.m20, a.m21, a.m22, a.m23, b.m01, b.m11, b.m21, b.m31),
      RowTimesColumn(a.m20, a.m21, a.m22, a.m23, b.m02, b.m12, b.m22, b.m32),
      RowTimesColumn(a.m20, a.m21, a.m22, a.m23, b.m03, b.m13, b.m23, b.m33),

      RowTimesColumn(a.m30, a.m31, a.m32, a.m33, b.m00, b.m10, b.m20, b.m30),
      RowTimesColumn(a.m30, a.m31, a.m32, a.m33, b.m01, b.m11, b.m21, b.m31),
      RowTimesColumn(a.m30, a.m31, a.m32, a.m33, b.m02, b.m12, b.m22, b.m32),
      RowTimesColumn(a.m30, a.m31, a.m32, a.m33, b.m03, b.m13, b.m23, b.m33))
  }

  /** the identity is neutral for the product on both sides */
  lemma MulIdentity(m: Mat4)
    ensures Mul(m, Identity) == m
    ensures Mul(Identity, m) == m
  {
  }

  // ---------------------------------------------------------------------------
  // Minors, adjugate, determinant, inverse, transpose, trace
  // ---------------------------------------------------------------------------

  /** `minor(r0, r1, r2, c0, c1, c2)`: the 3x3 determinant of the rows r0, r1, r2 and columns c0, c1, c2,
      expanded along its first row */
  function Minor(m: Mat4, r0: nat, r1: nat, r2: nat, c0: nat, c1: nat, c2: nat): real
    requires r0 < 4 && r1 < 4 && r2 < 4 && c0 < 4 && c1 < 4 && c2 < 4
  {
    At(m, r0, c0) * (At(m, r1, c1) * At(m, r2, c2) - At(m, r2, c1) * At(m, r1, c2)) -
    At(m, r0, c1) * (At(m, r1, c0) * At(m, r2, c2) - At(m, r2, c0) * At(m, r1, c2)) +
    At(m, r0, c2) * (At(m, r1, c0) * At(m, r2, c1) - At(m, r2, c0) * At(m, r1, c1))
  }

  /** `adjugate()`: entry (i, j) is the signed minor that leaves out row j and column i */
  function Adjugate(m: Mat4): Mat4 {
    Mat4(
       Minor(m, 1, 2, 3, 1, 2, 3), -Minor(m, 0, 2, 3, 1, 2, 3),  Minor(m, 0, 1, 3, 1, 2, 3), -Minor(m, 0, 1, 2, 1, 2, 3),
      -Minor(m, 1, 2, 3, 0, 2, 3),  Minor(m, 0, 2, 3, 0, 2, 3), -Minor(m, 0, 1, 3, 0, 2, 3),  Minor(m, 0, 1, 2, 0, 2, 3),
       Minor(m, 1, 2, 3, 0, 1, 3), -Minor(m, 0, 2, 3, 0, 1, 3),  Minor(m, 0, 1, 3, 0, 1, 3), -Minor(m, 0, 1, 2, 0, 1, 3),
      -Minor(m, 1, 2, 3, 0, 1, 2),  Minor(m, 0, 2, 3, 0, 1, 2), -Minor(m, 0, 1, 3, 0, 1, 2),  Minor(m, 0, 1, 2, 0, 1, 2))
  }

  /** `determinant()`: the cofactor expansion along row 0 */
  function Determinant(m: Mat4): real {
    m.m00 * Minor(m, 1, 2, 3, 1, 2, 3) -
    m.m01 * Minor(m, 1, 2, 3, 0, 2, 3) +
    m.m02 * Minor(m, 1, 2, 3, 0, 1, 3) -
    m.m03 * Minor(m, 1, 2, 3, 0, 1, 2)
  }

  /** `transpose()` */
  function Transpose(m: Mat4): Mat4 {
    Mat4(
      m.m00, m.m10, m.m20, m.m30,
      m.m01, m.m11, m.m21, m.m31,
      m.m02, m.m12, m.m22, m.m32,
      m.m03, m.m13, m.m23, m.m33)
  }

  /** `trace()` */
  function Trace(m: Mat4): real {
    m.m00 + m.m11 + m.m22 + m.m33
  }
  // ---------------------------------------------------------------------------
  // adjugate(m) * m == m * adjugate(m) == det(m) * I, multiplied out: every entry of either
  // product is a sum of four cofactor-times-entry products, each of which expands to six
  // signed products of four entries. Each such product is expanded on its own, and the
  // cancellation of the 24 resulting terms is then linear (the Expanded* lemmas, stated
  // over plain reals so that nothing else is in the solver's context).
  // ---------------------------------------------------------------------------

  /** one cofactor times one entry, multiplied out: three products added, three subtracted */
  function SixSum(t1: real, t2: real, t3: real, t4: real, t5: real, t6: real): real {
    t1 + t2 + t3 - t4 - t5 - t6
  }

  /** the determinant is row 0 of m times column 0 of its adjugate */
  lemma DeterminantIsFirstRowTimesAdjugate(m: Mat4)
    ensures Determinant(m) == RowTimesColumn(m.m00, m.m01, m.m02, m.m03, Adjugate(m).m00, Adjugate(m).m10, Adjugate(m).m20, Adjugate(m).m30)
  {
  }

  /** a cofactor times an entry, multiplied out term by term */
  lemma Distribute(c: real, x: real, t1: real, t2: real, t3: real, t4: real, t5: real, t6: real)
    requires c == t1 + t2 + t3 - t4 - t5 - t6
    ensures c * x == t1 * x + t2 * x + t3 * x - t4 * x - t5 * x - t6 * x
  {
  }

  /** an entry times a cofactor, multiplied out term by term */
  lemma DistributeLeft(x: real, c: real, t1: real, t2: real, t3: real, t4: real, t5: real, t6: real)
    requires c == t1 + t2 + t3 - t4 - t5 - t6
    ensures x * c == x * t1 + x * t2 + x * t3 - x * t4 - x * t5 - x * t6
  {
  }

  lemma Cofactor00(m: Mat4)
    ensures Adjugate(m).m00 == m.m11 * m.m22 * m.m33 + m.m12 * m.m23 * m.m31 + m.m13 * m.m21 * m.m32 - m.m11 * m.m23 * m.m32 - m.m12 * m.m21 * m.m33 - m.m13 * m.m22 * m.m31
  {
    assert Minor(m, 1, 2, 3, 1, 2, 3) == m.m11 * m.m22 * m.m33 + m.m12 * m.m23 * m.m31 + m.m13 * m.m21 * m.m32 - m.m11 * m.m23 * m.m32 - m.m12 * m.m21 * m.m33 - m.m13 * m.m22 * m.m31;
  }

  lemma Cofactor01(m: Mat4)
    ensures Adjugate(m).m01 == m.m01 * m.m23 * m.m32 + m.m02 * m.m21 * m.m33 + m.m03 * m.m22 * m.m31 - m.m01 * m.m22 * m.m33 - m.m02 * m.m23 * m.m31 - m.m03 * m.m21 * m.m32
  {
    assert Minor(m, 0, 2, 3, 1, 2, 3) == m.m01 * m.m22 * m.m33 + m.m02 * m.m23 * m.m31 + m.m03 * m.m21 * m.m32 - m.m01 * m.m23 * m.m32 - m.m02 * m.m21 * m.m33 - m.m03 * m.m22 * m.m31;
  }

  lemma Cofactor02(m: Mat4)
    ensures Adjugate(m).m02 == m.m01 * m.m12 * m.m33 + m.m02 * m.m13 * m.m31 + m.m03 * m.m11 * m.m32 - m.m01 * m.m13 * m.m32 - m.m02 * m.m11 * m.m33 - m.m03 * m.m12 * m.m31
  {
    assert Minor(m, 0, 1, 3, 1, 2, 3) == m.m01 * m.m12 * m.m33 + m.m02 * m.m13 * m.m31 + m.m03 * m.m11 * m.m32 - m.m01 * m.m13 * m.m32 - m.m02 * m.m11 * m.m33 - m.m03 * m.m12 * m.m31;
  }

  lemma Cofactor03(m: Mat4)
    ensures Adjugate(m).m03 == m.m01 * m.m13 * m.m22 + m.m02 * m.m11 * m.m23 + m.m03 * m.m12 * m.m21 - m.m01 * m.m12 * m.m23 - m.m02 * m.m13 * m.m21 - m.m03 * m.m11 * m.m22
  {
    assert Minor(m, 0, 1, 2, 1, 2, 3) == m.m01 * m.m12 * m.m23 + m.m02 * m.m13 * m.m21 + m.m03 * m.m11 * m.m22 - m.m01 * m.m13 * m.m22 - m.m02 * m.m11 * m.m23 - m.m03 * m.m12 * m.m21;
  }

  lemma Cofactor10(m: Mat4)
    ensures Adjugate(m).m10 == m.m10 * m.m23 * m.m32 + m.m12 * m.m20 * m.m33 + m.m13 * m.m22 * m.m30 - m.m10 * m.m22 * m.m33 - m.m12 * m.m23 * m.m30 - m.m13 * m.m20 * m.m32
  {
    assert Minor(m, 1, 2, 3, 0, 2, 3) == m.m10 * m.m22 * m.m33 + m.m12 * m.m23 * m.m30 + m.m13 * m.m20 * m.m32 - m.m10 * m.m23 * m.m32 - m.m12 * m.m20 * m.m33 - m.m13 * m.m22 * m.m30;
  }

  lemma Cofactor11(m: Mat4)
    ensures Adjugate(m).m11 == m.m00 * m.m22 * m.m33 + m.m02 * m.m23 * m.m30 + m.m03 * m.m20 * m.m32 - m.m00 * m.m23 * m.m32 - m.m02 * m.m20 * m.m33 - m.m03 * m.m22 * m.m30
  {
    assert Minor(m, 0, 2, 3, 0, 2, 3) == m.m00 * m.m22 * m.m33 + m.m02 * m.m23 * m.m30 + m.m03 * m.m20 * m.m32 - m.m00 * m.m23 * m.m32 - m.m02 * m.m20 * m.m33 - m.m03 * m.m22 * m.m30;
  }

  lemma Cofactor12(m: Mat4)
    ensures Adjugate(m).m12 == m.m00 * m.m13 * m.m32 + m.m02 * m.m10 * m.m33 + m.m03 * m.m12 * m.m30 - m.m00 * m.m12 * m.m33 - m.m02 * m.m13 * m.m30 - m.m03 * m.m10 * m.m32
  {
    assert Minor(m, 0, 1, 3, 0, 2, 3) == m.m00 * m.m12 * m.m33 + m.m02 * m.m13 * m.m30 + m.m03 * m.m10 * m.m32 - m.m00 * m.m13 * m.m32 - m.m02 * m.m10 * m.m33 - m.m03 * m.m12 * m.m30;
  }

  lemma Cofactor13(m: Mat4)
    ensures Adjugate(m).m13 == m.m00 * m.m12 * m.m23 + m.m02 * m.m13 * m.m20 + m.m03 * m.m10 * m.m22 - m.m00 * m.m13 * m.m22 - m.m02 * m.m10 * m.m23 - m.m03 * m.m12 * m.m20
  {
    assert Minor(m, 0, 1, 2, 0, 2, 3) == m.m00 * m.m12 * m.m23 + m.m02 * m.m13 * m.m20 + m.m03 * m.m10 * m.m22 - m.m00 * m.m13 * m.m22 - m.m02 * m.m10 * m.m23 - m.m03 * m.m12 * m.m20;
  }

  lemma Cofactor20(m: Mat4)
    ensures Adjugate(m).m20 == m.m10 * m.m21 * m.m33 + m.m11 * m.m23 * m.m30 + m.m13 * m.m20 * m.m31 - m.m10 * m.m23 * m.m31 - m.m11 * m.m20 * m.m33 - m.m13 * m.m21 * m.m30
  {
    assert Minor(m, 1, 2, 3, 0, 1, 3) == m.m10 * m.m21 * m.m33 + m.m11 * m.m23 * m.m30 + m.m13 * m.m20 * m.m31 - m.m10 * m.m23 * m.m31 - m.m11 * m.m20 * m.m33 - m.m13 * m.m21 * m.m30;
  }

  lemma Cofactor21(m: Mat4)
    ensures Adjugate(m).m21 == m.m00 * m.m23 * m.m31 + m.m01 * m.m20 * m.m33 + m.m03 * m.m21 * m.m30 - m.m00 * m.m21 * m.m33 - m.m01 * m.m23 * m.m30 - m.m03 * m.m20 * m.m31
  {
    assert Minor(m, 0, 2, 3, 0, 1, 3) == m.m00 * m.m21 * m.m33 + m.m01 * m.m23 * m.m30 + m.m03 * m.m20 * m.m31 - m.m00 * m.m23 * m.m31 - m.m01 * m.m20 * m.m33 - m.m03 * m.m21 * m.m30;
  }

  lemma Cofactor22(m: Mat4)
    ensures Adjugate(m).m22 == m.m00 * m.m11 * m.m33 + m.m01 * m.m13 * m.m30 + m.m03 * m.m10 * m.m31 - m.m00 * m.m13 * m.m31 - m.m01 * m.m10 * m.m33 - m.m03 * m.m11 * m.m30
  {
    assert Minor(m, 0, 1, 3, 0, 1, 3) == m.m00 * m.m11 * m.m33 + m.m01 * m.m13 * m.m30 + m.m03 * m.m10 * m.m31 - m.m00 * m.m13 * m.m31 - m.m01 * m.m10 * m.m33 - m.m03 * m.m11 * m.m30;
  }

  lemma Cofactor23(m: Mat4)
    ensures Adjugate(m).m23 == m.m00 * m.m13 * m.m21 + m.m01 * m.m10 * m.m23 + m.m03 * m.m11 * m.m20 - m.m00 * m.m11 * m.m23 - m.m01 * m.m13 * m.m20 - m.m03 * m.m10 * m.m21
  {
    assert Minor(m, 0, 1, 2, 0, 1, 3) == m.m00 * m.m11 * m.m23 + m.m01 * m.m13 * m.m20 + m.m03 * m.m10 * m.m21 - m.m00 * m.m13 * m.m21 - m.m01 * m.m10 * m.m23 - m.m03 * m.m11 * m.m20;
  }

  lemma Cofactor30(m: Mat4)
    ensures Adjugate(m).m30 == m.m10 * m.m22 * m.m31 + m.m11 * m.m20 * m.m32 + m.m12 * m.m21 * m.m30 - m.m10 * m.m21 * m.m32 - m.m11 * m.m22 * m.m30 - m.m12 * m.m20 * m.m31
  {
    assert Minor(m, 1, 2, 3, 0, 1, 2) == m.m10 * m.m21 * m.m32 + m.m11 * m.m22 * m.m30 + m.m12 * m.m20 * m.m31 - m.m10 * m.m22 * m.m31 - m.m11 * m.m20 * m.m32 - m.m12 * m.m21 * m.m30;
  }

  lemma Cofactor31(m: Mat4)
    ensures Adjugate(m).m31 == m.m00 * m.m21 * m.m32 + m.m01 * m.m22 * m.m30 + m.m02 * m.m20 * m.m31 - m.m00 * m.m22 * m.m31 - m.m01 * m.m20 * m.m32 - m.m02 * m.m21 * m.m30
  {
    assert Minor(m, 0, 2, 3, 0, 1, 2) == m.m00 * m.m21 * m.m32 + m.m01 * m.m22 * m.m30 + m.m02 * m.m20 * m.m31 - m.m00 * m.m22 * m.m31 - m.m01 * m.m20 * m.m32 - m.m02 * m.m21 * m.m30;
  }

  lemma Cofactor32(m: Mat4)
    ensures Adjugate(m).m32 == m.m00 * m.m12 * m.m31 + m.m01 * m.m10 * m.m32 + m.m02 * m.m11 * m.m30 - m.m00 * m.m11 * m.m32 - m.m01 * m.m12 * m.m30 - m.m02 * m.m10 * m.m31
  {
    assert Minor(m, 0, 1, 3, 0, 1, 2) == m.m00 * m.m11 * m.m32 + m.m01 * m.m12 * m.m30 + m.m02 * m.m10 * m.m31 - m.m00 * m.m12 * m.m31 - m.m01 * m.m10 * m.m32 - m.m02 * m.m11 * m.m30;
  }

  lemma Cofactor33(m: Mat4)
    ensures Adjugate(m).m33 == m.m00 * m.m11 * m.m22 + m.m01 * m.m12 * m.m20 + m.m02 * m.m10 * m.m21 - m.m00 * m.m12 * m.m21 - m.m01 * m.m10 * m.m22 - m.m02 * m.m11 * m.m20
  {
    assert Minor(m, 0, 1, 2, 0, 1, 2) == m.m00 * m.m11 * m.m22 + m.m01 * m.m12 * m.m20 + m.m02 * m.m10 * m.m21 - m.m00 * m.m12 * m.m21 - m.m01 * m.m10 * m.m22 - m.m02 * m.m11 * m.m20;
  }

  lemma AdjugateTimesMatrixEntry00(m: Mat4)
    ensures Mul(Adjugate(m), m).m00 == Determinant(m)
  {
    DeterminantExpanded(m);
    assert Adjugate(m).m00 * m.m00 == m.m00 * m.m11 * m.m22 * m.m33 + m.m00 * m.m12 * m.m23 * m.m31 + m.m00 * m.m13 * m.m21 * m.m32 - m.m00 * m.m11 * m.m23 * m.m32 - m.m00 * m.m12 * m.m21 * m.m33 - m.m00 * m.m13 * m.m22 * m.m31 by {
      Cofactor00(m);
      Distribute(Adjugate(m).m00, m.m00, m.m11 * m.m22 * m.m33, m.m12 * m.m23 * m.m31, m.m13 * m.m21 * m.m32, m.m11 * m.m23 * m.m32, m.m12 * m.m21 * m.m33, m.m13 * m.m22 * m.m31);
    }
    assert Adjugate(m).m01 * m.m10 == m.m01 * m.m10 * m.m23 * m.m32 + m.m02 * m.m10 * m.m21 * m.m33 + m.m03 * m.m10 * m.m22 * m.m31 - m.m01 * m.m10 * m.m22 * m.m33 - m.m02 * m.m10 * m.m23 * m.m31 - m.m03 * m.m10 * m.m21 * m.m32 by {
      Cofactor01(m);
      Distribute(Adjugate(m).m01, m.m10, m.m01 * m.m23 * m.m32, m.m02 * m.m21 * m.m33, m.m03 * m.m22 * m.m31, m.m01 * m.m22 * m.m33, m.m02 * m.m23 * m.m31, m.m03 * m.m21 * m.m32);
    }
    assert Adjugate(m).m02 * m.m20 == m.m01 * m.m12 * m.m20 * m.m33 + m.m02 * m.m13 * m.m20 * m.m31 + m.m03 * m.m11 * m.m20 * m.m32 - m.m01 * m.m13 * m.m20 * m.m32 - m.m02 * m.m11 * m.m20 * m.m33 - m.m03 * m.m12 * m.m20 * m.m31 by {
      Cofactor02(m);
      Distribute(Adjugate(m).m02, m.m20, m.m01 * m.m12 * m.m33, m.m02 * m.m13 * m.m31, m.m03 * m.m11 * m.m32, m.m01 * m.m13 * m.m32, m.m02 * m.m11 * m.m33, m.m03 * m.m12 * m.m31);
    }
    assert Adjugate(m).m03 * m.m30 == m.m01 * m.m13 * m.m22 * m.m30 + m.m02 * m.m11 * m.m23 * m.m30 + m.m03 * m.m12 * m.m21 * m.m30 - m.m01 * m.m12 * m.m23 * m.m30 - m.m02 * m.m13 * m.m21 * m.m30 - m.m03 * m.m11 * m.m22 * m.m30 by {
      Cofactor03(m);
      Distribute(Adjugate(m).m03, m.m30, m.m01 * m.m13 * m.m22, m.m02 * m.m11 * m.m23, m.m03 * m.m12 * m.m21, m.m01 * m.m12 * m.m23, m.m02 * m.m13 * m.m21, m.m03 * m.m11 * m.m22);
    }
    AdjugateTimesMatrixSum00(m, Adjugate(m));
  }

  lemma AdjugateTimesMatrixSum00(m: Mat4, a: Mat4)
    requires a.m00 * m.m00 == m.m00 * m.m11 * m.m22 * m.m33 + m.m00 * m.m12 * m.m23 * m.m31 + m.m00 * m.m13 * m.m21 * m.m32 - m.m00 * m.m11 * m.m23 * m.m32 - m.m00 * m.m12 * m.m21 * m.m33 - m.m00 * m.m13 * m.m22 * m.m31
    requires a.m01 * m.m10 == m.m01 * m.m10 * m.m23 * m.m32 + m.m02 * m.m10 * m.m21 * m.m33 + m.m03 * m.m10 * m.m22 * m.m31 - m.m01 * m.m10 * m.m22 * m.m33 - m.m02 * m.m10 * m.m23 * m.m31 - m.m03 * m.m10 * m.m21 * m.m32
    requires a.m02 * m.m20 == m.m01 * m.m12 * m.m20 * m.m33 + m.m02 * m.m13 * m.m20 * m.m31 + m.m03 * m.m11 * m.m20 * m.m32 - m.m01 * m.m13 * m.m20 * m.m32 - m.m02 * m.m11 * m.m20 * m.m33 - m.m03 * m.m12 * m.m20 * m.m31
    requires a.m03 * m.m30 == m.m01 * m.m13 * m.m22 * m.m30 + m.m02 * m.m11 * m.m23 * m.m30 + m.m03 * m.m12 * m.m21 * m.m30 - m.m01 * m.m12 * m.m23 * m.m30 - m.m02 * m.m13 * m.m21 * m.m30 - m.m03 * m.m11 * m.m22 * m.m30
    ensures RowTimesColumn(a.m00, a.m01, a.m02, a.m03, m.m00, m.m10, m.m20, m.m30) == m.m00 * m.m11 * m.m22 * m.m33
      + m.m00 * m.m12 * m.m23 * m.m31
      + m.m00 * m.m13 * m.m21 * m.m32
      + m.m01 * m.m10 * m.m23 * m.m32
      + m.m01 * m.m12 * m.m20 * m.m33
      + m.m01 * m.m13 * m.m22 * m.m30
      + m.m02 * m.m10 * m.m21 * m.m33
      + m.m02 * m.m11 * m.m23 * m.m30
      + m.m02 * m.m13 * m.m20 * m.m31
      + m.m03 * m.m10 * m.m22 * m.m31
      + m.m03 * m.m11 * m.m20 * m.m32
      + m.m03 * m.m12 * m.m21 * m.m30
      - m.m00 * m.m11 * m.m23 * m.m32
      - m.m00 * m.m12 * m.m21 * m.m33
      - m.m00 * m.m13 * m.m22 * m.m31
      - m.m01 * m.m10 * m.m22 * m.m33
      - m.m01 * m.m12 * m.m23 * m.m30
      - m.m01 * m.m13 * m.m20 * m.m32
      - m.m02 * m.m10 * m.m23 * m.m31
      - m.m02 * m.m11 * m.m20 * m.m33
      - m.m02 * m.m13 * m.m21 * m.m30
      - m.m03 * m.m10 * m.m21 * m.m32
      - m.m03 * m.m11 * m.m22 * m.m30
      - m.m03 * m.m12 * m.m20 * m.m31
  {
  }

  lemma AdjugateTimesMatrixEntry01(m: Mat4)
    ensures Mul(Adjugate(m), m).m01 == 0.0
  {
    assert Adjugate(m).m00 * m.m01 == m.m01 * m.m11 * m.m22 * m.m33 + m.m01 * m.m12 * m.m23 * m.m31 + m.m01 * m.m13 * m.m21 * m.m32 - m.m01 * m.m11 * m.m23 * m.m32 - m.m01 * m.m12 * m.m21 * m.m33 - m.m01 * m.m13 * m.m22 * m.m31 by {
      Cofactor00(m);
      Distribute(Adjugate(m).m00, m.m01, m.m11 * m.m22 * m.m33, m.m12 * m.m23 * m.m31, m.m13 * m.m21 * m.m32, m.m11 * m.m23 * m.m32, m.m12 * m.m21 * m.m33, m.m13 * m.m22 * m.m31);
    }
    assert Adjugate(m).m01 * m.m11 == m.m01 * m.m11 * m.m23 * m.m32 + m.m02 * m.m11 * m.m21 * m.m33 + m.m03 * m.m11 * m.m22 * m.m31 - m.m01 * m.m11 * m.m22 * m.m33 - m.m02 * m.m11 * m.m23 * m.m31 - m.m03 * m.m11 * m.m21 * m.m32 by {
      Cofactor01(m);
      Distribute(Adjugate(m).m01, m.m11, m.m01 * m.m23 * m.m32, m.m02 * m.m21 * m.m33, m.m03 * m.m22 * m.m31, m.m01 * m.m22 * m.m33, m.m02 * m.m23 * m.m31, m.m03 * m.m21 * m.m32);
    }
    assert Adjugate(m).m02 * m.m21 == m.m01 * m.m12 * m.m21 * m.m33 + m.m02 * m.m13 * m.m21 * m.m31 + m.m03 * m.m11 * m.m21 * m.m32 - m.m01 * m.m13 * m.m21 * m.m32 - m.m02 * m.m11 * m.m21 * m.m33 - m.m03 * m.m12 * m.m21 * m.m31 by {
      Cofactor02(m);
      Distribute(Adjugate(m).m02, m.m21, m.m01 * m.m12 * m.m33, m.m02 * m.m13 * m.m31, m.m03 * m.m11 * m.m32, m.m01 * m.m13 * m.m32, m.m02 * m.m11 * m.m33, m.m03 * m.m12 * m.m31);
    }
    assert Adjugate(m).m03 * m.m31 == m.m01 * m.m13 * m.m22 * m.m31 + m.m02 * m.m11 * m.m23 * m.m31 + m.m03 * m.m12 * m.m21 * m.m31 - m.m01 * m.m12 * m.m23 * m.m31 - m.m02 * m.m13 * m.m21 * m.m31 - m.m03 * m.m11 * m.m22 * m.m31 by {
      Cofactor03(m);
      Distribute(Adjugate(m).m03, m.m31, m.m01 * m.m13 * m.m22, m.m02 * m.m11 * m.m23, m.m03 * m.m12 * m.m21, m.m01 * m.m12 * m.m23, m.m02 * m.m13 * m.m21, m.m03 * m.m11 * m.m22);
    }
    AdjugateTimesMatrixSum01(m, Adjugate(m));
  }

  lemma AdjugateTimesMatrixSum01(m: Mat4, a: Mat4)
    requires a.m00 * m.m01 == m.m01 * m.m11 * m.m22 * m.m33 + m.m01 * m.m12 * m.m23 * m.m31 + m.m01 * m.m13 * m.m21 * m.m32 - m.m01 * m.m11 * m.m23 * m.m32 - m.m01 * m.m12 * m.m21 * m.m33 - m.m01 * m.m13 * m.m22 * m.m31
    requires a.m01 * m.m11 == m.m01 * m.m11 * m.m23 * m.m32 + m.m02 * m.m11 * m.m21 * m.m33 + m.m03 * m.m11 * m.m22 * m.m31 - m.m01 * m.m11 * m.m22 * m.m33 - m.m02 * m.m11 * m.m23 * m.m31 - m.m03 * m.m11 * m.m21 * m.m32
    requires a.m02 * m.m21 == m.m01 * m.m12 * m.m21 * m.m33 + m.m02 * m.m13 * m.m21 * m.m31 + m.m03 * m.m11 * m.m21 * m.m32 - m.m01 * m.m13 * m.m21 * m.m32 - m.m02 * m.m11 * m.m21 * m.m33 - m.m03 * m.m12 * m.m21 * m.m31
    requires a.m03 * m.m31 == m.m01 * m.m13 * m.m22 * m.m31 + m.m02 * m.m11 * m.m23 * m.m31 + m.m03 * m.m12 * m.m21 * m.m31 - m.m01 * m.m12 * m.m23 * m.m31 - m.m02 * m.m13 * m.m21 * m.m31 - m.m03 * m.m11 * m.m22 * m.m31
    ensures RowTimesColumn(a.m00, a.m01, a.m02, a.m03, m.m01, m.m11, m.m21, m.m31) == 0.0
  {
  }

  lemma AdjugateTimesMatrixEntry02(m: Mat4)
    ensures Mul(Adjugate(m), m).m02 == 0.0
  {
    assert Adjugate(m).m00 * m.m02 == m.m02 * m.m11 * m.m22 * m.m33 + m.m02 * m.m12 * m.m23 * m.m31 + m.m02 * m.m13 * m.m21 * m.m32 - m.m02 * m.m11 * m.m23 * m.m32 - m.m02 * m.m12 * m.m21 * m.m33 - m.m02 * m.m13 * m.m22 * m.m31 by {
      Cofactor00(m);
      Distribute(Adjugate(m).m00, m.m02, m.m11 * m.m22 * m.m33, m.m12 * m.m23 * m.m31, m.m13 * m.m21 * m.m32, m.m11 * m.m23 * m.m32, m.m12 * m.m21 * m.m33, m.m13 * m.m22 * m.m31);
    }
    assert Adjugate(m).m01 * m.m12 == m.m01 * m.m12 * m.m23 * m.m32 + m.m02 * m.m12 * m.m21 * m.m33 + m.m03 * m.m12 * m.m22 * m.m31 - m.m01 * m.m12 * m.m22 * m.m33 - m.m02 * m.m12 * m.m23 * m.m31 - m.m03 * m.m12 * m.m21 * m.m32 by {
      Cofactor01(m);
      Distribute(Adjugate(m).m01, m.m12, m.m01 * m.m23 * m.m32, m.m02 * m.m21 * m.m33, m.m03 * m.m22 * m.m31, m.m01 * m.m22 * m.m33, m.m02 * m.m23 * m.m31, m.m03 * m.m21 * m.m32);
    }
    assert Adjugate(m).m02 * m.m22 == m.m01 * m.m12 * m.m22 * m.m33 + m.m02 * m.m13 * m.m22 * m.m31 + m.m03 * m.m11 * m.m22 * m.m32 - m.m01 * m.m13 * m.m22 * m.m32 - m.m02 * m.m11 * m.m22 * m.m33 - m.m03 * m.m12 * m.m22 * m.m31 by {
      Cofactor02(m);
      Distribute(Adjugate(m).m02, m.m22, m.m01 * m.m12 * m.m33, m.m02 * m.m13 * m.m31, m.m03 * m.m11 * m.m32, m.m01 * m.m13 * m.m32, m.m02 * m.m11 * m.m33, m.m03 * m.m12 * m.m31);
    }
    assert Adjugate(m).m03 * m.m32 == m.m01 * m.m13 * m.m22 * m.m32 + m.m02 * m.m11 * m.m23 * m.m32 + m.m03 * m.m12 * m.m21 * m.m32 - m.m01 * m.m12 * m.m23 * m.m32 - m.m02 * m.m13 * m.m21 * m.m32 - m.m03 * m.m11 * m.m22 * m.m32 by {
      Cofactor03(m);
      Distribute(Adjugate(m).m03, m.m32, m.m01 * m.m13 * m.m22, m.m02 * m.m11 * m.m23, m.m03 * m.m12 * m.m21, m.m01 * m.m12 * m.m23, m.m02 * m.m13 * m.m21, m.m03 * m.m11 * m.m22);
    }
    AdjugateTimesMatrixSum02(m, Adjugate(m));
  }

  lemma AdjugateTimesMatrixSum02(m: Mat4, a: Mat4)
    requires a.m00 * m.m02 == m.m02 * m.m11 * m.m22 * m.m33 + m.m02 * m.m12 * m.m23 * m.m31 + m.m02 * m.m13 * m.m21 * m.m32 - m.m02 * m.m11 * m.m23 * m.m32 - m.m02 * m.m12 * m.m21 * m.m33 - m.m02 * m.m13 * m.m22 * m.m31
    requires a.m01 * m.m12 == m.m01 * m.m12 * m.m23 * m.m32 + m.m02 * m.m12 * m.m21 * m.m33 + m.m03 * m.m12 * m.m22 * m.m31 - m.m01 * m.m12 * m.m22 * m.m33 - m.m02 * m.m12 * m.m23 * m.m31 - m.m03 * m.m12 * m.m21 * m.m32
    requires a.m02 * m.m22 == m.m01 * m.m12 * m.m22 * m.m33 + m.m02 * m.m13 * m.m22 * m.m31 + m.m03 * m.m11 * m.m22 * m.m32 - m.m01 * m.m13 * m.m22 * m.m32 - m.m02 * m.m11 * m.m22 * m.m33 - m.m03 * m.m12 * m.m22 * m.m31
    requires a.m03 * m.m32 == m.m01 * m.m13 * m.m22 * m.m32 + m.m02 * m.m11 * m.m23 * m.m32 + m.m03 * m.m12 * m.m21 * m.m32 - m.m01 * m.m12 * m.m23 * m.m32 - m.m02 * m.m13 * m.m21 * m.m32 - m.m03 * m.m11 * m.m22 * m.m32
    ensures RowTimesColumn(a.m00, a.m01, a.m02, a.m03, m.m02, m.m12, m.m22, m.m32) == 0.0
  {
  }

  lemma AdjugateTimesMatrixEntry03(m: Mat4)
    ensures Mul(Adjugate(m), m).m03 == 0.0
  {
    assert Adjugate(m).m00 * m.m03 == m.m03 * m.m11 * m.m22 * m.m33 + m.m03 * m.m12 * m.m23 * m.m31 + m.m03 * m.m13 * m.m21 * m.m32 - m.m03 * m.m11 * m.m23 * m.m32 - m.m03 * m.m12 * m.m21 * m.m33 - m.m03 * m.m13 * m.m22 * m.m31 by {
      Cofactor00(m);
      Distribute(Adjugate(m).m00, m.m03, m.m11 * m.m22 * m.m33, m.m12 * m.m23 * m.m31, m.m13 * m.m21 * m.m32, m.m11 * m.m23 * m.m32, m.m12 * m.m21 * m.m33, m.m13 * m.m22 * m.m31);
    }
    assert Adjugate(m).m01 * m.m13 == m.m01 * m.m13 * m.m23 * m.m32 + m.m02 * m.m13 * m.m21 * m.m33 + m.m03 * m.m13 * m.m22 * m.m31 - m.m01 * m.m13 * m.m22 * m.m33 - m.m02 * m.m13 * m.m23 * m.m31 - m.m03 * m.m13 * m.m21 * m.m32 by {
      Cofactor01(m);
      Distribute(Adjugate(m).m01, m.m13, m.m01 * m.m23 * m.m32, m.m02 * m.m21 * m.m33, m.m03 * m.m22 * m.m31, m.m01 * m.m22 * m.m33, m.m02 * m.m23 * m.m31, m.m03 * m.m21 * m.m32);
    }
    assert Adjugate(m).m02 * m.m23 == m.m01 * m.m12 * m.m23 * m.m33 + m.m02 * m.m13 * m.m23 * m.m31 + m.m03 * m.m11 * m.m23 * m.m32 - m.m01 * m.m13 * m.m23 * m.m32 - m.m02 * m.m11 * m.m23 * m.m33 - m.m03 * m.m12 * m.m23 * m.m31 by {
      Cofactor02(m);
      Distribute(Adjugate(m).m02, m.m23, m.m01 * m.m12 * m.m33, m.m02 * m.m13 * m.m31, m.m03 * m.m11 * m.m32, m.m01 * m.m13 * m.m32, m.m02 * m.m11 * m.m33, m.m03 * m.m12 * m.m31);
    }
    assert Adjugate(m).m03 * m.m33 == m.m01 * m.m13 * m.m22 * m.m33 + m.m02 * m.m11 * m.m23 * m.m33 + m.m03 * m.m12 * m.m21 * m.m33 - m.m01 * m.m12 * m.m23 * m.m33 - m.m02 * m.m13 * m.m21 * m.m33 - m.m03 * m.m11 * m.m22 * m.m33 by {
      Cofactor03(m);
      Distribute(Adjugate(m).m03, m.m33, m.m01 * m.m13 * m.m22, m.m02 * m.m11 * m.m23, m.m03 * m.m12 * m.m21, m.m01 * m.m12 * m.m23, m.m02 * m.m13 * m.m21, m.m03 * m.m11 * m.m22);
    }
    AdjugateTimesMatrixSum03(m, Adjugate(m));
  }

  lemma AdjugateTimesMatrixSum03(m: Mat4, a: Mat4)
    requires a.m00 * m.m03 == m.m03 * m.m11 * m.m22 * m.m33 + m.m03 * m.m12 * m.m23 * m.m31 + m.m03 * m.m13 * m.m21 * m.m32 - m.m03 * m.m11 * m.m23 * m.m32 - m.m03 * m.m12 * m.m21 * m.m33 - m.m03 * m.m13 * m.m22 * m.m31
    requires a.m01 * m.m13 == m.m01 * m.m13 * m.m23 * m.m32 + m.m02 * m.m13 * m.m21 * m.m33 + m.m03 * m.m13 * m.m22 * m.m31 - m.m01 * m.m13 * m.m22 * m.m33 - m.m02 * m.m13 * m.m23 * m.m31 - m.m03 * m.m13 * m.m21 * m.m32
    requires a.m02 * m.m23 == m.m01 * m.m12 * m.m23 * m.m33 + m.m02 * m.m13 * m.m23 * m.m31 + m.m03 * m.m11 * m.m23 * m.m32 - m.m01 * m.m13 * m.m23 * m.m32 - m.m02 * m.m11 * m.m23 * m.m33 - m.m03 * m.m12 * m.m23 * m.m31
    requires a.m03 * m.m33 == m.m01 * m.m13 * m.m22 * m.m33 + m.m02 * m.m11 * m.m23 * m.m33 + m.m03 * m.m12 * m.m21 * m.m33 - m.m01 * m.m12 * m.m23 * m.m33 - m.m02 * m.m13 * m.m21 * m.m33 - m.m03 * m.m11 * m.m22 * m.m33
    ensures RowTimesColumn(a.m00, a.m01, a.m02, a.m03, m.m03, m.m13, m.m23, m.m33) == 0.0
  {
  }

  lemma AdjugateTimesMatrixEntry10(m: Mat4)
    ensures Mul(Adjugate(m), m).m10 == 0.0
  {
    assert Adjugate(m).m10 * m.m00 == m.m00 * m.m10 * m.m23 * m.m32 + m.m00 * m.m12 * m.m20 * m.m33 + m.m00 * m.m13 * m.m22 * m.m30 - m.m00 * m.m10 * m.m22 * m.m33 - m.m00 * m.m12 * m.m23 * m.m30 - m.m00 * m.m13 * m.m20 * m.m32 by {
      Cofactor10(m);
      Distribute(Adjugate(m).m10, m.m00, m.m10 * m.m23 * m.m32, m.m12 * m.m20 * m.m33, m.m13 * m.m22 * m.m30, m.m10 * m.m22 * m.m33, m.m12 * m.m23 * m.m30, m.m13 * m.m20 * m.m32);
    }
    assert Adjugate(m).m11 * m.m10 == m.m00 * m.m10 * m.m22 * m.m33 + m.m02 * m.m10 * m.m23 * m.m30 + m.m03 * m.m10 * m.m20 * m.m32 - m.m00 * m.m10 * m.m23 * m.m32 - m.m02 * m.m10 * m.m20 * m.m33 - m.m03 * m.m10 * m.m22 * m.m30 by {
      Cofactor11(m);
      Distribute(Adjugate(m).m11, m.m10, m.m00 * m.m22 * m.m33, m.m02 * m.m23 * m.m30, m.m03 * m.m20 * m.m32, m.m00 * m.m23 * m.m32, m.m02 * m.m20 * m.m33, m.m03 * m.m22 * m.m30);
    }
    assert Adjugate(m).m12 * m.m20 == m.m00 * m.m13 * m.m20 * m.m32 + m.m02 * m.m10 * m.m20 * m.m33 + m.m03 * m.m12 * m.m20 * m.m30 - m.m00 * m.m12 * m.m20 * m.m33 - m.m02 * m.m13 * m.m20 * m.m30 - m.m03 * m.m10 * m.m20 * m.m32 by {
      Cofactor12(m);
      Distribute(Adjugate(m).m12, m.m20, m.m00 * m.m13 * m.m32, m.m02 * m.m10 * m.m33, m.m03 * m.m12 * m.m30, m.m00 * m.m12 * m.m33, m.m02 * m.m13 * m.m30, m.m03 * m.m10 * m.m32);
    }
    assert Adjugate(m).m13 * m.m30 == m.m00 * m.m12 * m.m23 * m.m30 + m.m02 * m.m13 * m.m20 * m.m30 + m.m03 * m.m10 * m.m22 * m.m30 - m.m00 * m.m13 * m.m22 * m.m30 - m.m02 * m.m10 * m.m23 * m.m30 - m.m03 * m.m12 * m.m20 * m.m30 by {
      Cofactor13(m);
      Distribute(Adjugate(m).m13, m.m30, m.m00 * m.m12 * m.m23, m.m02 * m.m13 * m.m20, m.m03 * m.m10 * m.m22, m.m00 * m.m13 * m.m22, m.m02 * m.m10 * m.m23, m.m03 * m.m12 * m.m20);
    }
    AdjugateTimesMatrixSum10(m, Adjugate(m));
  }

  lemma AdjugateTimesMatrixSum10(m: Mat4, a: Mat4)
    requires a.m10 * m.m00 == m.m00 * m.m10 * m.m23 * m.m32 + m.m00 * m.m12 * m.m20 * m.m33 + m.m00 * m.m13 * m.m22 * m.m30 - m.m00 * m.m10 * m.m22 * m.m33 - m.m00 * m.m12 * m.m23 * m.m30 - m.m00 * m.m13 * m.m20 * m.m32
    requires a.m11 * m.m10 == m.m00 * m.m10 * m.m22 * m.m33 + m.m02 * m.m10 * m.m23 * m.m30 + m.m03 * m.m10 * m.m20 * m.m32 - m.m00 * m.m10 * m.m23 * m.m32 - m.m02 * m.m10 * m.m20 * m.m33 - m.m03 * m.m10 * m.m22 * m.m30
    requires a.m12 * m.m20 == m.m00 * m.m13 * m.m20 * m.m32 + m.m02 * m.m10 * m.m20 * m.m33 + m.m03 * m.m12 * m.m20 * m.m30 - m.m00 * m.m12 * m.m20 * m.m33 - m.m02 * m.m13 * m.m20 * m.m30 - m.m03 * m.m10 * m.m20 * m.m32
    requires a.m13 * m.m30 == m.m00 * m.m12 * m.m23 * m.m30 + m.m02 * m.m13 * m.m20 * m.m30 + m.m03 * m.m10 * m.m22 * m.m30 - m.m00 * m.m13 * m.m22 * m.m30 - m.m02 * m.m10 * m.m23 * m.m30 - m.m03 * m.m12 * m.m20 * m.m30
    ensures RowTimesColumn(a.m10, a.m11, a.m12, a.m13, m.m00, m.m10, m.m20, m.m30) == 0.0
  {
  }

  lemma AdjugateTimesMatrixEntry11(m: Mat4)
    ensures Mul(Adjugate(m), m).m11 == Determinant(m)
  {
    DeterminantExpanded(m);
    assert Adjugate(m).m10 * m.m01 == m.m01 * m.m10 * m.m23 * m.m32 + m.m01 * m.m12 * m.m20 * m.m33 + m.m01 * m.m13 * m.m22 * m.m30 - m.m01 * m.m10 * m.m22 * m.m33 - m.m01 * m.m12 * m.m23 * m.m30 - m.m01 * m.m13 * m.m20 * m.m32 by {
      Cofactor10(m);
      Distribute(Adjugate(m).m10, m.m01, m.m10 * m.m23 * m.m32, m.m12 * m.m20 * m.m33, m.m13 * m.m22 * m.m30, m.m10 * m.m22 * m.m33, m.m12 * m.m23 * m.m30, m.m13 * m.m20 * m.m32);
    }
    assert Adjugate(m).m11 * m.m11 == m.m00 * m.m11 * m.m22 * m.m33 + m.m02 * m.m11 * m.m23 * m.m30 + m.m03 * m.m11 * m.m20 * m.m32 - m.m00 * m.m11 * m.m23 * m.m32 - m.m02 * m.m11 * m.m20 * m.m33 - m.m03 * m.m11 * m.m22 * m.m30 by {
      Cofactor11(m);
      Distribute(Adjugate(m).m11, m.m11, m.m00 * m.m22 * m.m33, m.m02 * m.m23 * m.m30, m.m03 * m.m20 * m.m32, m.m00 * m.m23 * m.m32, m.m02 * m.m20 * m.m33, m.m03 * m.m22 * m.m30);
    }
    assert Adjugate(m).m12 * m.m21 == m.m00 * m.m13 * m.m21 * m.m32 + m.m02 * m.m10 * m.m21 * m.m33 + m.m03 * m.m12 * m.m21 * m.m30 - m.m00 * m.m12 * m.m21 * m.m33 - m.m02 * m.m13 * m.m21 * m.m30 - m.m03 * m.m10 * m.m21 * m.m32 by {
      Cofactor12(m);
      Distribute(Adjugate(m).m12, m.m21, m.m00 * m.m13 * m.m32, m.m02 * m.m10 * m.m33, m.m03 * m.m12 * m.m30, m.m00 * m.m12 * m.m33, m.m02 * m.m13 * m.m30, m.m03 * m.m10 * m.m32);
    }
    assert Adjugate(m).m13 * m.m31 == m.m00 * m.m12 * m.m23 * m.m31 + m.m02 * m.m13 * m.m20 * m.m31 + m.m03 * m.m10 * m.m22 * m.m31 - m.m00 * m.m13 * m.m22 * m.m31 - m.m02 * m.m10 * m.m23 * m.m31 - m.m03 * m.m12 * m.m20 * m.m31 by {
      Cofactor13(m);
      Distribute(Adjugate(m).m13, m.m31, m.m00 * m.m12 * m.m23, m.m02 * m.m13 * m.m20, m.m03 * m.m10 * m.m22, m.m00 * m.m13 * m.m22, m.m02 * m.m10 * m.m23, m.m03 * m.m12 * m.m20);
    }
    AdjugateTimesMatrixSum11(m, Adjugate(m));
  }

  lemma AdjugateTimesMatrixSum11(m: Mat4, a: Mat4)
    requires a.m10 * m.m01 == m.m01 * m.m10 * m.m23 * m.m32 + m.m01 * m.m12 * m.m20 * m.m33 + m.m01 * m.m13 * m.m22 * m.m30 - m.m01 * m.m10 * m.m22 * m.m33 - m.m01 * m.m12 * m.m23 * m.m30 - m.m01 * m.m13 * m.m20 * m.m32
    requires a.m11 * m.m11 == m.m00 * m.m11 * m.m22 * m.m33 + m.m02 * m.m11 * m.m23 * m.m30 + m.m03 * m.m11 * m.m20 * m.m32 - m.m00 * m.m11 * m.m23 * m.m32 - m.m02 * m.m11 * m.m20 * m.m33 - m.m03 * m.m11 * m.m22 * m.m30
    requires a.m12 * m.m21 == m.m00 * m.m13 * m.m21 * m.m32 + m.m02 * m.m10 * m.m21 * m.m33 + m.m03 * m.m12 * m.m21 * m.m30 - m.m00 * m.m12 * m.m21 * m.m33 - m.m02 * m.m13 * m.m21 * m.m30 - m.m03 * m.m10 * m.m21 * m.m32
    requires a.m13 * m.m31 == m.m00 * m.m12 * m.m23 * m.m31 + m.m02 * m.m13 * m.m20 * m.m31 + m.m03 * m.m10 * m.m22 * m.m31 - m.m00 * m.m13 * m.m22 * m.m31 - m.m02 * m.m10 * m.m23 * m.m31 - m.m03 * m.m12 * m.m20 * m.m31
    ensures RowTimesColumn(a.m10, a.m11, a.m12, a.m13, m.m01, m.m11, m.m21, m.m31) == m.m00 * m.m11 * m.m22 * m.m33
      + m.m00 * m.m12 * m.m23 * m.m31
      + m.m00 * m.m13 * m.m21 * m.m32
      + m.m01 * m.m10 * m.m23 * m.m32
      + m.m01 * m.m12 * m.m20 * m.m33
      + m.m01 * m.m13 * m.m22 * m.m30
      + m.m02 * m.m10 * m.m21 * m.m33
      + m.m02 * m.m11 * m.m23 * m.m30
      + m.m02 * m.m13 * m.m20 * m.m31
      + m.m03 * m.m10 * m.m22 * m.m31
      + m.m03 * m.m11 * m.m20 * m.m32
      + m.m03 * m.m12 * m.m21 * m.m30
      - m.m00 * m.m11 * m.m23 * m.m32
      - m.m00 * m.m12 * m.m21 * m.m33
      - m.m00 * m.m13 * m.m22 * m.m31
      - m.m01 * m.m10 * m.m22 * m.m33
      - m.m01 * m.m12 * m.m23 * m.m30
      - m.m01 * m.m13 * m.m20 * m.m32
      - m.m02 * m.m10 * m.m23 * m.m31
      - m.m02 * m.m11 * m.m20 * m.m33
      - m.m02 * m.m13 * m.m21 * m.m30
      - m.m03 * m.m10 * m.m21 * m.m32
      - m.m03 * m.m11 * m.m22 * m.m30
      - m.m03 * m.m12 * m.m20 * m.m31
  {
  }

  lemma AdjugateTimesMatrixEntry12(m: Mat4)
    ensures Mul(Adjugate(m), m).m12 == 0.0
  {
    assert Adjugate(m).m10 * m.m02 == m.m02 * m.m10 * m.m23 * m.m32 + m.m02 * m.m12 * m.m20 * m.m33 + m.m02 * m.m13 * m.m22 * m.m30 - m.m02 * m.m10 * m.m22 * m.m33 - m.m02 * m.m12 * m.m23 * m.m30 - m.m02 * m.m13 * m.m20 * m.m32 by {
      Cofactor10(m);
      Distribute(Adjugate(m).m10, m.m02, m.m10 * m.m23 * m.m32, m.m12 * m.m20 * m.m33, m.m13 * m.m22 * m.m30, m.m10 * m.m22 * m.m33, m.m12 * m.m23 * m.m30, m.m13 * m.m20 * m.m32);
    }
    assert Adjugate(m).m11 * m.m12 == m.m00 * m.m12 * m.m22 * m.m33 + m.m02 * m.m12 * m.m23 * m.m30 + m.m03 * m.m12 * m.m20 * m.m32 - m.m00 * m.m12 * m.m23 * m.m32 - m.m02 * m.m12 * m.m20 * m.m33 - m.m03 * m.m12 * m.m22 * m.m30 by {
      Cofactor11(m);
      Distribute(Adjugate(m).m11, m.m12, m.m00 * m.m22 * m.m33, m.m02 * m.m23 * m.m30, m.m03 * m.m20 * m.m32, m.m00 * m.m23 * m.m32, m.m02 * m.m20 * m.m33, m.m03 * m.m22 * m.m30);
    }
    assert Adjugate(m).m12 * m.m22 == m.m00 * m.m13 * m.m22 * m.m32 + m.m02 * m.m10 * m.m22 * m.m33 + m.m03 * m.m12 * m.m22 * m.m30 - m.m00 * m.m12 * m.m22 * m.m33 - m.m02 * m.m13 * m.m22 * m.m30 - m.m03 * m.m10 * m.m22 * m.m32 by {
      Cofactor12(m);
      Distribute(Adjugate(m).m12, m.m22, m.m00 * m.m13 * m.m32, m.m02 * m.m10 * m.m33, m.m03 * m.m12 * m.m30, m.m00 * m.m12 * m.m33, m.m02 * m.m13 * m.m30, m.m03 * m.m10 * m.m32);
    }
    assert Adjugate(m).m13 * m.m32 == m.m00 * m.m12 * m.m23 * m.m32 + m.m02 * m.m13 * m.m20 * m.m32 + m.m03 * m.m10 * m.m22 * m.m32 - m.m00 * m.m13 * m.m22 * m.m32 - m.m02 * m.m10 * m.m23 * m.m32 - m.m03 * m.m12 * m.m20 * m.m32 by {
      Cofactor13(m);
      Distribute(Adjugate(m).m13, m.m32, m.m00 * m.m12 * m.m23, m.m02 * m.m13 * m.m20, m.m03 * m.m10 * m.m22, m.m00 * m.m13 * m.m22, m.m02 * m.m10 * m.m23, m.m03 * m.m12 * m.m20);
    }
    AdjugateTimesMatrixSum12(m, Adjugate(m));
  }

  lemma AdjugateTimesMatrixSum12(m: Mat4, a: Mat4)
    requires a.m10 * m.m02 == m.m02 * m.m10 * m.m23 * m.m32 + m.m02 * m.m12 * m.m20 * m.m33 + m.m02 * m.m13 * m.m22 * m.m30 - m.m02 * m.m10 * m.m22 * m.m33 - m.m02 * m.m12 * m.m23 * m.m30 - m.m02 * m.m13 * m.m20 * m.m32
    requires a.m11 * m.m12 == m.m00 * m.m12 * m.m22 * m.m33 + m.m02 * m.m12 * m.m23 * m.m30 + m.m03 * m.m12 * m.m20 * m.m32 - m.m00 * m.m12 * m.m23 * m.m32 - m.m02 * m.m12 * m.m20 * m.m33 - m.m03 * m.m12 * m.m22 * m.m30
    requires a.m12 * m.m22 == m.m00 * m.m13 * m.m22 * m.m32 + m.m02 * m.m10 * m.m22 * m.m33 + m.m03 * m.m12 * m.m22 * m.m30 - m.m00 * m.m12 * m.m22 * m.m33 - m.m02 * m.m13 * m.m22 * m.m30 - m.m03 * m.m10 * m.m22 * m.m32
    requires a.m13 * m.m32 == m.m00 * m.m12 * m.m23 * m.m32 + m.m02 * m.m13 * m.m20 * m.m32 + m.m03 * m.m10 * m.m22 * m.m32 - m.m00 * m.m13 * m.m22 * m.m32 - m.m02 * m.m10 * m.m23 * m.m32 - m.m03 * m.m12 * m.m20 * m.m32
    ensures RowTimesColumn(a.m10, a.m11, a.m12, a.m13, m.m02, m.m12, m.m22, m.m32) == 0.0
  {
  }

  lemma AdjugateTimesMatrixEntry13(m: Mat4)
    ensures Mul(Adjugate(m), m).m13 == 0.0
  {
    assert Adjugate(m).m10 * m.m03 == m.m03 * m.m10 * m.m23 * m.m32 + m.m03 * m.m12 * m.m20 * m.m33 + m.m03 * m.m13 * m.m22 * m.m30 - m.m03 * m.m10 * m.m22 * m.m33 - m.m03 * m.m12 * m.m23 * m.m30 - m.m03 * m.m13 * m.m20 * m.m32 by {
      Cofactor10(m);
      Distribute(Adjugate(m).m10, m.m03, m.m10 * m.m23 * m.m32, m.m12 * m.m20 * m.m33, m.m13 * m.m22 * m.m30, m.m10 * m.m22 * m.m33, m.m12 * m.m23 * m.m30, m.m13 * m.m20 * m.m32);
    }
    assert Adjugate(m).m11 * m.m13 == m.m00 * m.m13 * m.m22 * m.m33 + m.m02 * m.m13 * m.m23 * m.m30 + m.m03 * m.m13 * m.m20 * m.m32 - m.m00 * m.m13 * m.m23 * m.m32 - m.m02 * m.m13 * m.m20 * m.m33 - m.m03 * m.m13 * m.m22 * m.m30 by {
      Cofactor11(m);
      Distribute(Adjugate(m).m11, m.m13, m.m00 * m.m22 * m.m33, m.m02 * m.m23 * m.m30, m.m03 * m.m20 * m.m32, m.m00 * m.m23 * m.m32, m.m02 * m.m20 * m.m33, m.m03 * m.m22 * m.m30);
    }
    assert Adjugate(m).m12 * m.m23 == m.m00 * m.m13 * m.m23 * m.m32 + m.m02 * m.m10 * m.m23 * m.m33 + m.m03 * m.m12 * m.m23 * m.m30 - m.m00 * m.m12 * m.m23 * m.m33 - m.m02 * m.m13 * m.m23 * m.m30 - m.m03 * m.m10 * m.m23 * m.m32 by {
      Cofactor12(m);
      Distribute(Adjugate(m).m12, m.m23, m.m00 * m.m13 * m.m32, m.m02 * m.m10 * m.m33, m.m03 * m.m12 * m.m30, m.m00 * m.m12 * m.m33, m.m02 * m.m13 * m.m30, m.m03 * m.m10 * m.m32);
    }
    assert Adjugate(m).m13 * m.m33 == m.m00 * m.m12 * m.m23 * m.m33 + m.m02 * m.m13 * m.m20 * m.m33 + m.m03 * m.m10 * m.m22 * m.m33 - m.m00 * m.m13 * m.m22 * m.m33 - m.m02 * m.m10 * m.m23 * m.m33 - m.m03 * m.m12 * m.m20 * m.m33 by {
      Cofactor13(m);
      Distribute(Adjugate(m).m13, m.m33, m.m00 * m.m12 * m.m23, m.m02 * m.m13 * m.m20, m.m03 * m.m10 * m.m22, m.m00 * m.m13 * m.m22, m.m02 * m.m10 * m.m23, m.m03 * m.m12 * m.m20);
    }
    AdjugateTimesMatrixSum13(m, Adjugate(m));
  }

  lemma AdjugateTimesMatrixSum13(m: Mat4, a: Mat4)
    requires a.m10 * m.m03 == m.m03 * m.m10 * m.m23 * m.m32 + m.m03 * m.m12 * m.m20 * m.m33 + m.m03 * m.m13 * m.m22 * m.m30 - m.m03 * m.m10 * m.m22 * m.m33 - m.m03 * m.m12 * m.m23 * m.m30 - m.m03 * m.m13 * m.m20 * m.m32
    requires a.m11 * m.m13 == m.m00 * m.m13 * m.m22 * m.m33 + m.m02 * m.m13 * m.m23 * m.m30 + m.m03 * m.m13 * m.m20 * m.m32 - m.m00 * m.m13 * m.m23 * m.m32 - m.m02 * m.m13 * m.m20 * m.m33 - m.m03 * m.m13 * m.m22 * m.m30
    requires a.m12 * m.m23 == m.m00 * m.m13 * m.m23 * m.m32 + m.m02 * m.m10 * m.m23 * m.m33 + m.m03 * m.m12 * m.m23 * m.m30 - m.m00 * m.m12 * m.m23 * m.m33 - m.m02 * m.m13 * m.m23 * m.m30 - m.m03 * m.m10 * m.m23 * m.m32
    requires a.m13 * m.m33 == m.m00 * m.m12 * m.m23 * m.m33 + m.m02 * m.m13 * m.m20 * m.m33 + m.m03 * m.m10 * m.m22 * m.m33 - m.m00 * m.m13 * m.m22 * m.m33 - m.m02 * m.m10 * m.m23 * m.m33 - m.m03 * m.m12 * m.m20 * m.m33
    ensures RowTimesColumn(a.m10, a.m11, a.m12, a.m13, m.m03, m.m13, m.m23, m.m33) == 0.0
  {
  }

  lemma AdjugateTimesMatrixEntry20(m: Mat4)
    ensures Mul(Adjugate(m), m).m20 == 0.0
  {
    assert Adjugate(m).m20 * m.m00 == m.m00 * m.m10 * m.m21 * m.m33 + m.m00 * m.m11 * m.m23 * m.m30 + m.m00 * m.m13 * m.m20 * m.m31 - m.m00 * m.m10 * m.m23 * m.m31 - m.m00 * m.m11 * m.m20 * m.m33 - m.m00 * m.m13 * m.m21 * m.m30 by {
      Cofactor20(m);
      Distribute(Adjugate(m).m20, m.m00, m.m10 * m.m21 * m.m33, m.m11 * m.m23 * m.m30, m.m13 * m.m20 * m.m31, m.m10 * m.m23 * m.m31, m.m11 * m.m20 * m.m33, m.m13 * m.m21 * m.m30);
    }
    assert Adjugate(m).m21 * m.m10 == m.m00 * m.m10 * m.m23 * m.m31 + m.m01 * m.m10 * m.m20 * m.m33 + m.m03 * m.m10 * m.m21 * m.m30 - m.m00 * m.m10 * m.m21 * m.m33 - m.m01 * m.m10 * m.m23 * m.m30 - m.m03 * m.m10 * m.m20 * m.m31 by {
      Cofactor21(m);
      Distribute(Adjugate(m).m21, m.m10, m.m00 * m.m23 * m.m31, m.m01 * m.m20 * m.m33, m.m03 * m.m21 * m.m30, m.m00 * m.m21 * m.m33, m.m01 * m.m23 * m.m30, m.m03 * m.m20 * m.m31);
    }
    assert Adjugate(m).m22 * m.m20 == m.m00 * m.m11 * m.m20 * m.m33 + m.m01 * m.m13 * m.m20 * m.m30 + m.m03 * m.m10 * m.m20 * m.m31 - m.m00 * m.m13 * m.m20 * m.m31 - m.m01 * m.m10 * m.m20 * m.m33 - m.m03 * m.m11 * m.m20 * m.m30 by {
      Cofactor22(m);
      Distribute(Adjugate(m).m22, m.m20, m.m00 * m.m11 * m.m33, m.m01 * m.m13 * m.m30, m.m03 * m.m10 * m.m31, m.m00 * m.m13 * m.m31, m.m01 * m.m10 * m.m33, m.m03 * m.m11 * m.m30);
    }
    assert Adjugate(m).m23 * m.m30 == m.m00 * m.m13 * m.m21 * m.m30 + m.m01 * m.m10 * m.m23 * m.m30 + m.m03 * m.m11 * m.m20 * m.m30 - m.m00 * m.m11 * m.m23 * m.m30 - m.m01 * m.m13 * m.m20 * m.m30 - m.m03 * m.m10 * m.m21 * m.m30 by {
      Cofactor23(m);
      Distribute(Adjugate(m).m23, m.m30, m.m00 * m.m13 * m.m21, m.m01 * m.m10 * m.m23, m.m03 * m.m11 * m.m20, m.m00 * m.m11 * m.m23, m.m01 * m.m13 * m.m20, m.m03 * m.m10 * m.m21);
    }
    AdjugateTimesMatrixSum20(m, Adjugate(m));
  }

  lemma AdjugateTimesMatrixSum20(m: Mat4, a: Mat4)
    requires a.m20 * m.m00 == m.m00 * m.m10 * m.m21 * m.m33 + m.m00 * m.m11 * m.m23 * m.m30 + m.m00 * m.m13 * m.m20 * m.m31 - m.m00 * m.m10 * m.m23 * m.m31 - m.m00 * m.m11 * m.m20 * m.m33 - m.m00 * m.m13 * m.m21 * m.m30
    requires a.m21 * m.m10 == m.m00 * m.m10 * m.m23 * m.m31 + m.m01 * m.m10 * m.m20 * m.m33 + m.m03 * m.m10 * m.m21 * m.m30 - m.m00 * m.m10 * m.m21 * m.m33 - m.m01 * m.m10 * m.m23 * m.m30 - m.m03 * m.m10 * m.m20 * m.m31
    requires a.m22 * m.m20 == m.m00 * m.m11 * m.m20 * m.m33 + m.m01 * m.m13 * m.m20 * m.m30 + m.m03 * m.m10 * m.m20 * m.m31 - m.m00 * m.m13 * m.m20 * m.m31 - m.m01 * m.m10 * m.m20 * m.m33 - m.m03 * m.m11 * m.m20 * m.m30
    requires a.m23 * m.m30 == m.m00 * m.m13 * m.m21 * m.m30 + m.m01 * m.m10 * m.m23 * m.m30 + m.m03 * m.m11 * m.m20 * m.m30 - m.m00 * m.m11 * m.m23 * m.m30 - m.m01 * m.m13 * m.m20 * m.m30 - m.m03 * m.m10 * m.m21 * m.m30
    ensures RowTimesColumn(a.m20, a.m21, a.m22, a.m23, m.m00, m.m10, m.m20, m.m30) == 0.0
  {
  }

  lemma AdjugateTimesMatrixEntry21(m: Mat4)
    ensures Mul(Adjugate(m), m).m21 == 0.0
  {
    assert Adjugate(m).m20 * m.m01 == m.m01 * m.m10 * m.m21 * m.m33 + m.m01 * m.m11 * m.m23 * m.m30 + m.m01 * m.m13 * m.m20 * m.m31 - m.m01 * m.m10 * m.m23 * m.m31 - m.m01 * m.m11 * m.m20 * m.m33 - m.m01 * m.m13 * m.m21 * m.m30 by {
      Cofactor20(m);
      Distribute(Adjugate(m).m20, m.m01, m.m10 * m.m21 * m.m33, m.m11 * m.m23 * m.m30, m.m13 * m.m20 * m.m31, m.m10 * m.m23 * m.m31, m.m11 * m.m20 * m.m33, m.m13 * m.m21 * m.m30);
    }
    assert Adjugate(m).m21 * m.m11 == m.m00 * m.m11 * m.m23 * m.m31 + m.m01 * m.m11 * m.m20 * m.m33 + m.m03 * m.m11 * m.m21 * m.m30 - m.m00 * m.m11 * m.m21 * m.m33 - m.m01 * m.m11 * m.m23 * m.m30 - m.m03 * m.m11 * m.m20 * m.m31 by {
      Cofactor21(m);
      Distribute(Adjugate(m).m21, m.m11, m.m00 * m.m23 * m.m31, m.m01 * m.m20 * m.m33, m.m03 * m.m21 * m.m30, m.m00 * m.m21 * m.m33, m.m01 * m.m23 * m.m30, m.m03 * m.m20 * m.m31);
    }
    assert Adjugate(m).m22 * m.m21 == m.m00 * m.m11 * m.m21 * m.m33 + m.m01 * m.m13 * m.m21 * m.m30 + m.m03 * m.m10 * m.m21 * m.m31 - m.m00 * m.m13 * m.m21 * m.m31 - m.m01 * m.m10 * m.m21 * m.m33 - m.m03 * m.m11 * m.m21 * m.m30 by {
      Cofactor22(m);
      Distribute(Adjugate(m).m22, m.m21, m.m00 * m.m11 * m.m33, m.m01 * m.m13 * m.m30, m.m03 * m.m10 * m.m31, m.m00 * m.m13 * m.m31, m.m01 * m.m10 * m.m33, m.m03 * m.m11 * m.m30);
    }
    assert Adjugate(m).m23 * m.m31 == m.m00 * m.m13 * m.m21 * m.m31 + m.m01 * m.m10 * m.m23 * m.m31 + m.m03 * m.m11 * m.m20 * m.m31 - m.m00 * m.m11 * m.m23 * m.m31 - m.m01 * m.m13 * m.m20 * m.m31 - m.m03 * m.m10 * m.m21 * m.m31 by {
      Cofactor23(m);
      Distribute(Adjugate(m).m23, m.m31, m.m00 * m.m13 * m.m21, m.m01 * m.m10 * m.m23, m.m03 * m.m11 * m.m20, m.m00 * m.m11 * m.m23, m.m01 * m.m13 * m.m20, m.m03 * m.m10 * m.m21);
    }
    AdjugateTimesMatrixSum21(m, Adjugate(m));
  }

  lemma AdjugateTimesMatrixSum21(m: Mat4, a: Mat4)
    requires a.m20 * m.m01 == m.m01 * m.m10 * m.m21 * m.m33 + m.m01 * m.m11 * m.m23 * m.m30 + m.m01 * m.m13 * m.m20 * m.m31 - m.m01 * m.m10 * m.m23 * m.m31 - m.m01 * m.m11 * m.m20 * m.m33 - m.m01 * m.m13 * m.m21 * m.m30
    requires a.m21 * m.m11 == m.m00 * m.m11 * m.m23 * m.m31 + m.m01 * m.m11 * m.m20 * m.m33 + m.m03 * m.m11 * m.m21 * m.m30 - m.m00 * m.m11 * m.m21 * m.m33 - m.m01 * m.m11 * m.m23 * m.m30 - m.m03 * m.m11 * m.m20 * m.m31
    requires a.m22 * m.m21 == m.m00 * m.m11 * m.m21 * m.m33 + m.m01 * m.m13 * m.m21 * m.m30 + m.m03 * m.m10 * m.m21 * m.m31 - m.m00 * m.m13 * m.m21 * m.m31 - m.m01 * m.m10 * m.m21 * m.m33 - m.m03 * m.m11 * m.m21 * m.m30
    requires a.m23 * m.m31 == m.m00 * m.m13 * m.m21 * m.m31 + m.m01 * m.m10 * m.m23 * m.m31 + m.m03 * m.m11 * m.m20 * m.m31 - m.m00 * m.m11 * m.m23 * m.m31 - m.m01 * m.m13 * m.m20 * m.m31 - m.m03 * m.m10 * m.m21 * m.m31
    ensures RowTimesColumn(a.m20, a.m21, a.m22, a.m23, m.m01, m.m11, m.m21, m.m31) == 0.0
  {
  }

  lemma AdjugateTimesMatrixEntry22(m: Mat4)
    ensures Mul(Adjugate(m), m).m22 == Determinant(m)
  {
    DeterminantExpanded(m);
    assert Adjugate(m).m20 * m.m02 == m.m02 * m.m10 * m.m21 * m.m33 + m.m02 * m.m11 * m.m23 * m.m30 + m.m02 * m.m13 * m.m20 * m.m31 - m.m02 * m.m10 * m.m23 * m.m31 - m.m02 * m.m11 * m.m20 * m.m33 - m.m02 * m.m13 * m.m21 * m.m30 by {
      Cofactor20(m);
      Distribute(Adjugate(m).m20, m.m02, m.m10 * m.m21 * m.m33, m.m11 * m.m23 * m.m30, m.m13 * m.m20 * m.m31, m.m10 * m.m23 * m.m31, m.m11 * m.m20 * m.m33, m.m13 * m.m21 * m.m30);
    }
    assert Adjugate(m).m21 * m.m12 == m.m00 * m.m12 * m.m23 * m.m31 + m.m01 * m.m12 * m.m20 * m.m33 + m.m03 * m.m12 * m.m21 * m.m30 - m.m00 * m.m12 * m.m21 * m.m33 - m.m01 * m.m12 * m.m23 * m.m30 - m.m03 * m.m12 * m.m20 * m.m31 by {
      Cofactor21(m);
      Distribute(Adjugate(m).m21, m.m12, m.m00 * m.m23 * m.m31, m.m01 * m.m20 * m.m33, m.m03 * m.m21 * m.m30, m.m00 * m.m21 * m.m33, m.m01 * m.m23 * m.m30, m.m03 * m.m20 * m.m31);
    }
    assert Adjugate(m).m22 * m.m22 == m.m00 * m.m11 * m.m22 * m.m33 + m.m01 * m.m13 * m.m22 * m.m30 + m.m03 * m.m10 * m.m22 * m.m31 - m.m00 * m.m13 * m.m22 * m.m31 - m.m01 * m.m10 * m.m22 * m.m33 - m.m03 * m.m11 * m.m22 * m.m30 by {
      Cofactor22(m);
      Distribute(Adjugate(m).m22, m.m22, m.m00 * m.m11 * m.m33, m.m01 * m.m13 * m.m30, m.m03 * m.m10 * m.m31, m.m00 * m.m13 * m.m31, m.m01 * m.m10 * m.m33, m.m03 * m.m11 * m.m30);
    }
    assert Adjugate(m).m23 * m.m32 == m.m00 * m.m13 * m.m21 * m.m32 + m.m01 * m.m10 * m.m23 * m.m32 + m.m03 * m.m11 * m.m20 * m.m32 - m.m00 * m.m11 * m.m23 * m.m32 - m.m01 * m.m13 * m.m20 * m.m32 - m.m03 * m.m10 * m.m21 * m.m32 by {
      Cofactor23(m);
      Distribute(Adjugate(m).m23, m.m32, m.m00 * m.m13 * m.m21, m.m01 * m.m10 * m.m23, m.m03 * m.m11 * m.m20, m.m00 * m.m11 * m.m23, m.m01 * m.m13 * m.m20, m.m03 * m.m10 * m.m21);
    }
    AdjugateTimesMatrixSum22(m, Adjugate(m));
  }

  lemma AdjugateTimesMatrixSum22(m: Mat4, a: Mat4)
    requires a.m20 * m.m02 == m.m02 * m.m10 * m.m21 * m.m33 + m.m02 * m.m11 * m.m23 * m.m30 + m.m02 * m.m13 * m.m20 * m.m31 - m.m02 * m.m10 * m.m23 * m.m31 - m.m02 * m.m11 * m.m20 * m.m33 - m.m02 * m.m13 * m.m21 * m.m30
    requires a.m21 * m.m12 == m.m00 * m.m12 * m.m23 * m.m31 + m.m01 * m.m12 * m.m20 * m.m33 + m.m03 * m.m12 * m.m21 * m.m30 - m.m00 * m.m12 * m.m21 * m.m33 - m.m01 * m.m12 * m.m23 * m.m30 - m.m03 * m.m12 * m.m20 * m.m31
    requires a.m22 * m.m22 == m.m00 * m.m11 * m.m22 * m.m33 + m.m01 * m.m13 * m.m22 * m.m30 + m.m03 * m.m10 * m.m22 * m.m31 - m.m00 * m.m13 * m.m22 * m.m31 - m.m01 * m.m10 * m.m22 * m.m33 - m.m03 * m.m11 * m.m22 * m.m30
    requires a.m23 * m.m32 == m.m00 * m.m13 * m.m21 * m.m32 + m.m01 * m.m10 * m.m23 * m.m32 + m.m03 * m.m11 * m.m20 * m.m32 - m.m00 * m.m11 * m.m23 * m.m32 - m.m01 * m.m13 * m.m20 * m.m32 - m.m03 * m.m10 * m.m21 * m.m32
    ensures RowTimesColumn(a.m20, a.m21, a.m22, a.m23, m.m02, m.m12, m.m22, m.m32) == m.m00 * m.m11 * m.m22 * m.m33
      + m.m00 * m.m12 * m.m23 * m.m31
      + m.m00 * m.m13 * m.m21 * m.m32
      + m.m01 * m.m10 * m.m23 * m.m32
      + m.m01 * m.m12 * m.m20 * m.m33
      + m.m01 * m.m13 * m.m22 * m.m30
      + m.m02 * m.m10 * m.m21 * m.m33
      + m.m02 * m.m11 * m.m23 * m.m30
      + m.m02 * m.m13 * m.m20 * m.m31
      + m.m03 * m.m10 * m.m22 * m.m31
      + m.m03 * m.m11 * m.m20 * m.m32
      + m.m03 * m.m12 * m.m21 * m.m30
      - m.m00 * m.m11 * m.m23 * m.m32
      - m.m00 * m.m12 * m.m21 * m.m33
      - m.m00 * m.m13 * m.m22 * m.m31
      - m.m01 * m.m10 * m.m22 * m.m33
      - m.m01 * m.m12 * m.m23 * m.m30
      - m.m01 * m.m13 * m.m20 * m.m32
      - m.m02 * m.m10 * m.m23 * m.m31
      - m.m02 * m.m11 * m.m20 * m.m33
      - m.m02 * m.m13 * m.m21 * m.m30
      - m.m03 * m.m10 * m.m21 * m.m32
      - m.m03 * m.m11 * m.m22 * m.m30
      - m.m03 * m.m12 * m.m20 * m.m31
  {
  }

  lemma AdjugateTimesMatrixEntry23(m: Mat4)
    ensures Mul(Adjugate(m), m).m23 == 0.0
  {
    assert Adjugate(m).m20 * m.m03 == m.m03 * m.m10 * m.m21 * m.m33 + m.m03 * m.m11 * m.m23 * m.m30 + m.m03 * m.m13 * m.m20 * m.m31 - m.m03 * m.m10 * m.m23 * m.m31 - m.m03 * m.m11 * m.m20 * m.m33 - m.m03 * m.m13 * m.m21 * m.m30 by {
      Cofactor20(m);
      Distribute(Adjugate(m).m20, m.m03, m.m10 * m.m21 * m.m33, m.m11 * m.m23 * m.m30, m.m13 * m.m20 * m.m31, m.m10 * m.m23 * m.m31, m.m11 * m.m20 * m.m33, m.m13 * m.m21 * m.m30);
    }
    assert Adjugate(m).m21 * m.m13 == m.m00 * m.m13 * m.m23 * m.m31 + m.m01 * m.m13 * m.m20 * m.m33 + m.m03 * m.m13 * m.m21 * m.m30 - m.m00 * m.m13 * m.m21 * m.m33 - m.m01 * m.m13 * m.m23 * m.m30 - m.m03 * m.m13 * m.m20 * m.m31 by {
      Cofactor21(m);
      Distribute(Adjugate(m).m21, m.m13, m.m00 * m.m23 * m.m31, m.m01 * m.m20 * m.m33, m.m03 * m.m21 * m.m30, m.m00 * m.m21 * m.m33, m.m01 * m.m23 * m.m30, m.m03 * m.m20 * m.m31);
    }
    assert Adjugate(m).m22 * m.m23 == m.m00 * m.m11 * m.m23 * m.m33 + m.m01 * m.m13 * m.m23 * m.m30 + m.m03 * m.m10 * m.m23 * m.m31 - m.m00 * m.m13 * m.m23 * m.m31 - m.m01 * m.m10 * m.m23 * m.m33 - m.m03 * m.m11 * m.m23 * m.m30 by {
      Cofactor22(m);
      Distribute(Adjugate(m).m22, m.m23, m.m00 * m.m11 * m.m33, m.m01 * m.m13 * m.m30, m.m03 * m.m10 * m.m31, m.m00 * m.m13 * m.m31, m.m01 * m.m10 * m.m33, m.m03 * m.m11 * m.m30);
    }
    assert Adjugate(m).m23 * m.m33 == m.m00 * m.m13 * m.m21 * m.m33 + m.m01 * m.m10 * m.m23 * m.m33 + m.m03 * m.m11 * m.m20 * m.m33 - m.m00 * m.m11 * m.m23 * m.m33 - m.m01 * m.m13 * m.m20 * m.m33 - m.m03 * m.m10 * m.m21 * m.m33 by {
      Cofactor23(m);
      Distribute(Adjugate(m).m23, m.m33, m.m00 * m.m13 * m.m21, m.m01 * m.m10 * m.m23, m.m03 * m.m11 * m.m20, m.m00 * m.m11 * m.m23, m.m01 * m.m13 * m.m20, m.m03 * m.m10 * m.m21);
    }
    AdjugateTimesMatrixSum23(m, Adjugate(m));
  }

  lemma AdjugateTimesMatrixSum23(m: Mat4, a: Mat4)
    requires a.m20 * m.m03 == m.m03 * m.m10 * m.m21 * m.m33 + m.m03 * m.m11 * m.m23 * m.m30 + m.m03 * m.m13 * m.m20 * m.m31 - m.m03 * m.m10 * m.m23 * m.m31 - m.m03 * m.m11 * m.m20 * m.m33 - m.m03 * m.m13 * m.m21 * m.m30
    requires a.m21 * m.m13 == m.m00 * m.m13 * m.m23 * m.m31 + m.m01 * m.m13 * m.m20 * m.m33 + m.m03 * m.m13 * m.m21 * m.m30 - m.m00 * m.m13 * m.m21 * m.m33 - m.m01 * m.m13 * m.m23 * m.m30 - m.m03 * m.m13 * m.m20 * m.m31
    requires a.m22 * m.m23 == m.m00 * m.m11 * m.m23 * m.m33 + m.m01 * m.m13 * m.m23 * m.m30 + m.m03 * m.m10 * m.m23 * m.m31 - m.m00 * m.m13 * m.m23 * m.m31 - m.m01 * m.m10 * m.m23 * m.m33 - m.m03 * m.m11 * m.m23 * m.m30
    requires a.m23 * m.m33 == m.m00 * m.m13 * m.m21 * m.m33 + m.m01 * m.m10 * m.m23 * m.m33 + m.m03 * m.m11 * m.m20 * m.m33 - m.m00 * m.m11 * m.m23 * m.m33 - m.m01 * m.m13 * m.m20 * m.m33 - m.m03 * m.m10 * m.m21 * m.m33
    ensures RowTimesColumn(a.m20, a.m21, a.m22, a.m23, m.m03, m.m13, m.m23, m.m33) == 0.0
  {
  }

  lemma AdjugateTimesMatrixEntry30(m: Mat4)
    ensures Mul(Adjugate(m), m).m30 == 0.0
  {
    assert Adjugate(m).m30 * m.m00 == m.m00 * m.m10 * m.m22 * m.m31 + m.m00 * m.m11 * m.m20 * m.m32 + m.m00 * m.m12 * m.m21 * m.m30 - m.m00 * m.m10 * m.m21 * m.m32 - m.m00 * m.m11 * m.m22 * m.m30 - m.m00 * m.m12 * m.m20 * m.m31 by {
      Cofactor30(m);
      Distribute(Adjugate(m).m30, m.m00, m.m10 * m.m22 * m.m31, m.m11 * m.m20 * m.m32, m.m12 * m.m21 * m.m30, m.m10 * m.m21 * m.m32, m.m11 * m.m22 * m.m30, m.m12 * m.m20 * m.m31);
    }
    assert Adjugate(m).m31 * m.m10 == m.m00 * m.m10 * m.m21 * m.m32 + m.m01 * m.m10 * m.m22 * m.m30 + m.m02 * m.m10 * m.m20 * m.m31 - m.m00 * m.m10 * m.m22 * m.m31 - m.m01 * m.m10 * m.m20 * m.m32 - m.m02 * m.m10 * m.m21 * m.m30 by {
      Cofactor31(m);
      Distribute(Adjugate(m).m31, m.m10, m.m00 * m.m21 * m.m32, m.m01 * m.m22 * m.m30, m.m02 * m.m20 * m.m31, m.m00 * m.m22 * m.m31, m.m01 * m.m20 * m.m32, m.m02 * m.m21 * m.m30);
    }
    assert Adjugate(m).m32 * m.m20 == m.m00 * m.m12 * m.m20 * m.m31 + m.m01 * m.m10 * m.m20 * m.m32 + m.m02 * m.m11 * m.m20 * m.m30 - m.m00 * m.m11 * m.m20 * m.m32 - m.m01 * m.m12 * m.m20 * m.m30 - m.m02 * m.m10 * m.m20 * m.m31 by {
      Cofactor32(m);
      Distribute(Adjugate(m).m32, m.m20, m.m00 * m.m12 * m.m31, m.m01 * m.m10 * m.m32, m.m02 * m.m11 * m.m30, m.m00 * m.m11 * m.m32, m.m01 * m.m12 * m.m30, m.m02 * m.m10 * m.m31);
    }
    assert Adjugate(m).m33 * m.m30 == m.m00 * m.m11 * m.m22 * m.m30 + m.m01 * m.m12 * m.m20 * m.m30 + m.m02 * m.m10 * m.m21 * m.m30 - m.m00 * m.m12 * m.m21 * m.m30 - m.m01 * m.m10 * m.m22 * m.m30 - m.m02 * m.m11 * m.m20 * m.m30 by {
      Cofactor33(m);
      Distribute(Adjugate(m).m33, m.m30, m.m00 * m.m11 * m.m22, m.m01 * m.m12 * m.m20, m.m02 * m.m10 * m.m21, m.m00 * m.m12 * m.m21, m.m01 * m.m10 * m.m22, m.m02 * m.m11 * m.m20);
    }
    AdjugateTimesMatrixSum30(m, Adjugate(m));
  }

  lemma AdjugateTimesMatrixSum30(m: Mat4, a: Mat4)
    requires a.m30 * m.m00 == m.m00 * m.m10 * m.m22 * m.m31 + m.m00 * m.m11 * m.m20 * m.m32 + m.m00 * m.m12 * m.m21 * m.m30 - m.m00 * m.m10 * m.m21 * m.m32 - m.m00 * m.m11 * m.m22 * m.m30 - m.m00 * m.m12 * m.m20 * m.m31
    requires a.m31 * m.m10 == m.m00 * m.m10 * m.m21 * m.m32 + m.m01 * m.m10 * m.m22 * m.m30 + m.m02 * m.m10 * m.m20 * m.m31 - m.m00 * m.m10 * m.m22 * m.m31 - m.m01 * m.m10 * m.m20 * m.m32 - m.m02 * m.m10 * m.m21 * m.m30
    requires a.m32 * m.m20 == m.m00 * m.m12 * m.m20 * m.m31 + m.m01 * m.m10 * m.m20 * m.m32 + m.m02 * m.m11 * m.m20 * m.m30 - m.m00 * m.m11 * m.m20 * m.m32 - m.m01 * m.m12 * m.m20 * m.m30 - m.m02 * m.m10 * m.m20 * m.m31
    requires a.m33 * m.m30 == m.m00 * m.m11 * m.m22 * m.m30 + m.m01 * m.m12 * m.m20 * m.m30 + m.m02 * m.m10 * m.m21 * m.m30 - m.m00 * m.m12 * m.m21 * m.m30 - m.m01 * m.m10 * m.m22 * m.m30 - m.m02 * m.m11 * m.m20 * m.m30
    ensures RowTimesColumn(a.m30, a.m31, a.m32, a.m33, m.m00, m.m10, m.m20, m.m30) == 0.0
  {
  }

  lemma AdjugateTimesMatrixEntry31(m: Mat4)
    ensures Mul(Adjugate(m), m).m31 == 0.0
  {
    assert Adjugate(m).m30 * m.m01 == m.m01 * m.m10 * m.m22 * m.m31 + m.m01 * m.m11 * m.m20 * m.m32 + m.m01 * m.m12 * m.m21 * m.m30 - m.m01 * m.m10 * m.m21 * m.m32 - m.m01 * m.m11 * m.m22 * m.m30 - m.m01 * m.m12 * m.m20 * m.m31 by {
      Cofactor30(m);
      Distribute(Adjugate(m).m30, m.m01, m.m10 * m.m22 * m.m31, m.m11 * m.m20 * m.m32, m.m12 * m.m21 * m.m30, m.m10 * m.m21 * m.m32, m.m11 * m.m22 * m.m30, m.m12 * m.m20 * m.m31);
    }
    assert Adjugate(m).m31 * m.m11 == m.m00 * m.m11 * m.m21 * m.m32 + m.m01 * m.m11 * m.m22 * m.m30 + m.m02 * m.m11 * m.m20 * m.m31 - m.m00 * m.m11 * m.m22 * m.m31 - m.m01 * m.m11 * m.m20 * m.m32 - m.m02 * m.m11 * m.m21 * m.m30 by {
      Cofactor31(m);
      Distribute(Adjugate(m).m31, m.m11, m.m00 * m.m21 * m.m32, m.m01 * m.m22 * m.m30, m.m02 * m.m20 * m.m31, m.m00 * m.m22 * m.m31, m.m01 * m.m20 * m.m32, m.m02 * m.m21 * m.m30);
    }
    assert Adjugate(m).m32 * m.m21 == m.m00 * m.m12 * m.m21 * m.m31 + m.m01 * m.m10 * m.m21 * m.m32 + m.m02 * m.m11 * m.m21 * m.m30 - m.m00 * m.m11 * m.m21 * m.m32 - m.m01 * m.m12 * m.m21 * m.m30 - m.m02 * m.m10 * m.m21 * m.m31 by {
      Cofactor32(m);
      Distribute(Adjugate(m).m32, m.m21, m.m00 * m.m12 * m.m31, m.m01 * m.m10 * m.m32, m.m02 * m.m11 * m.m30, m.m00 * m.m11 * m.m32, m.m01 * m.m12 * m.m30, m.m02 * m.m10 * m.m31);
    }
    assert Adjugate(m).m33 * m.m31 == m.m00 * m.m11 * m.m22 * m.m31 + m.m01 * m.m12 * m.m20 * m.m31 + m.m02 * m.m10 * m.m21 * m.m31 - m.m00 * m.m12 * m.m21 * m.m31 - m.m01 * m.m10 * m.m22 * m.m31 - m.m02 * m.m11 * m.m20 * m.m31 by {
      Cofactor33(m);
      Distribute(Adjugate(m).m33, m.m31, m.m00 * m.m11 * m.m22, m.m01 * m.m12 * m.m20, m.m02 * m.m10 * m.m21, m.m00 * m.m12 * m.m21, m.m01 * m.m10 * m.m22, m.m02 * m.m11 * m.m20);
    }
    AdjugateTimesMatrixSum31(m, Adjugate(m));
  }

  lemma AdjugateTimesMatrixSum31(m: Mat4, a: Mat4)
    requires a.m30 * m.m01 == m.m01 * m.m10 * m.m22 * m.m31 + m.m01 * m.m11 * m.m20 * m.m32 + m.m01 * m.m12 * m.m21 * m.m30 - m.m01 * m.m10 * m.m21 * m.m32 - m.m01 * m.m11 * m.m22 * m.m30 - m.m01 * m.m12 * m.m20 * m.m31
    requires a.m31 * m.m11 == m.m00 * m.m11 * m.m21 * m.m32 + m.m01 * m.m11 * m.m22 * m.m30 + m.m02 * m.m11 * m.m20 * m.m31 - m.m00 * m.m11 * m.m22 * m.m31 - m.m01 * m.m11 * m.m20 * m.m32 - m.m02 * m.m11 * m.m21 * m.m30
    requires a.m32 * m.m21 == m.m00 * m.m12 * m.m21 * m.m31 + m.m01 * m.m10 * m.m21 * m.m32 + m.m02 * m.m11 * m.m21 * m.m30 - m.m00 * m.m11 * m.m21 * m.m32 - m.m01 * m.m12 * m.m21 * m.m30 - m.m02 * m.m10 * m.m21 * m.m31
    requires a.m33 * m.m31 == m.m00 * m.m11 * m.m22 * m.m31 + m.m01 * m.m12 * m.m20 * m.m31 + m.m02 * m.m10 * m.m21 * m.m31 - m.m00 * m.m12 * m.m21 * m.m31 - m.m01 * m.m10 * m.m22 * m.m31 - m.m02 * m.m11 * m.m20 * m.m31
    ensures RowTimesColumn(a.m30, a.m31, a.m32, a.m33, m.m01, m.m11, m.m21, m.m31) == 0.0
  {
  }

  lemma AdjugateTimesMatrixEntry32(m: Mat4)
    ensures Mul(Adjugate(m), m).m32 == 0.0
  {
    assert Adjugate(m).m30 * m.m02 == m.m02 * m.m10 * m.m22 * m.m31 + m.m02 * m.m11 * m.m20 * m.m32 + m.m02 * m.m12 * m.m21 * m.m30 - m.m02 * m.m10 * m.m21 * m.m32 - m.m02 * m.m11 * m.m22 * m.m30 - m.m02 * m.m12 * m.m20 * m.m31 by {
      Cofactor30(m);
      Distribute(Adjugate(m).m30, m.m02, m.m10 * m.m22 * m.m31, m.m11 * m.m20 * m.m32, m.m12 * m.m21 * m.m30, m.m10 * m.m21 * m.m32, m.m11 * m.m22 * m.m30, m.m12 * m.m20 * m.m31);
    }
    assert Adjugate(m).m31 * m.m12 == m.m00 * m.m12 * m.m21 * m.m32 + m.m01 * m.m12 * m.m22 * m.m30 + m.m02 * m.m12 * m.m20 * m.m31 - m.m00 * m.m12 * m.m22 * m.m31 - m.m01 * m.m12 * m.m20 * m.m32 - m.m02 * m.m12 * m.m21 * m.m30 by {
      Cofactor31(m);
      Distribute(Adjugate(m).m31, m.m12, m.m00 * m.m21 * m.m32, m.m01 * m.m22 * m.m30, m.m02 * m.m20 * m.m31, m.m00 * m.m22 * m.m31, m.m01 * m.m20 * m.m32, m.m02 * m.m21 * m.m30);
    }
    assert Adjugate(m).m32 * m.m22 == m.m00 * m.m12 * m.m22 * m.m31 + m.m01 * m.m10 * m.m22 * m.m32 + m.m02 * m.m11 * m.m22 * m.m30 - m.m00 * m.m11 * m.m22 * m.m32 - m.m01 * m.m12 * m.m22 * m.m30 - m.m02 * m.m10 * m.m22 * m.m31 by {
      Cofactor32(m);
      Distribute(Adjugate(m).m32, m.m22, m.m00 * m.m12 * m.m31, m.m01 * m.m10 * m.m32, m.m02 * m.m11 * m.m30, m.m00 * m.m11 * m.m32, m.m01 * m.m12 * m.m30, m.m02 * m.m10 * m.m31);
    }
    assert Adjugate(m).m33 * m.m32 == m.m00 * m.m11 * m.m22 * m.m32 + m.m01 * m.m12 * m.m20 * m.m32 + m.m02 * m.m10 * m.m21 * m.m32 - m.m00 * m.m12 * m.m21 * m.m32 - m.m01 * m.m10 * m.m22 * m.m32 - m.m02 * m.m11 * m.m20 * m.m32 by {
      Cofactor33(m);
      Distribute(Adjugate(m).m33, m.m32, m.m00 * m.m11 * m.m22, m.m01 * m.m12 * m.m20, m.m02 * m.m10 * m.m21, m.m00 * m.m12 * m.m21, m.m01 * m.m10 * m.m22, m.m02 * m.m11 * m.m20);
    }
    AdjugateTimesMatrixSum32(m, Adjugate(m));
  }

  lemma AdjugateTimesMatrixSum32(m: Mat4, a: Mat4)
    requires a.m30 * m.m02 == m.m02 * m.m10 * m.m22 * m.m31 + m.m02 * m.m11 * m.m20 * m.m32 + m.m02 * m.m12 * m.m21 * m.m30 - m.m02 * m.m10 * m.m21 * m.m32 - m.m02 * m.m11 * m.m22 * m.m30 - m.m02 * m.m12 * m.m20 * m.m31
    requires a.m31 * m.m12 == m.m00 * m.m12 * m.m21 * m.m32 + m.m01 * m.m12 * m.m22 * m.m30 + m.m02 * m.m12 * m.m20 * m.m31 - m.m00 * m.m12 * m.m22 * m.m31 - m.m01 * m.m12 * m.m20 * m.m32 - m.m02 * m.m12 * m.m21 * m.m30
    requires a.m32 * m.m22 == m.m00 * m.m12 * m.m22 * m.m31 + m.m01 * m.m10 * m.m22 * m.m32 + m.m02 * m.m11 * m.m22 * m.m30 - m.m00 * m.m11 * m.m22 * m.m32 - m.m01 * m.m12 * m.m22 * m.m30 - m.m02 * m.m10 * m.m22 * m.m31
    requires a.m33 * m.m32 == m.m00 * m.m11 * m.m22 * m.m32 + m.m01 * m.m12 * m.m20 * m.m32 + m.m02 * m.m10 * m.m21 * m.m32 - m.m00 * m.m12 * m.m21 * m.m32 - m.m01 * m.m10 * m.m22 * m.m32 - m.m02 * m.m11 * m.m20 * m.m32
    ensures RowTimesColumn(a.m30, a.m31, a.m32, a.m33, m.m02, m.m12, m.m22, m.m32) == 0.0
  {
  }

  lemma AdjugateTimesMatrixEntry33(m: Mat4)
    ensures Mul(Adjugate(m), m).m33 == Determinant(m)
  {
    DeterminantExpanded(m);
    assert Adjugate(m).m30 * m.m03 == m.m03 * m.m10 * m.m22 * m.m31 + m.m03 * m.m11 * m.m20 * m.m32 + m.m03 * m.m12 * m.m21 * m.m30 - m.m03 * m.m10 * m.m21 * m.m32 - m.m03 * m.m11 * m.m22 * m.m30 - m.m03 * m.m12 * m.m20 * m.m31 by {
      Cofactor30(m);
      Distribute(Adjugate(m).m30, m.m03, m.m10 * m.m22 * m.m31, m.m11 * m.m20 * m.m32, m.m12 * m.m21 * m.m30, m.m10 * m.m21 * m.m32, m.m11 * m.m22 * m.m30, m.m12 * m.m20 * m.m31);
    }
    assert Adjugate(m).m31 * m.m13 == m.m00 * m.m13 * m.m21 * m.m32 + m.m01 * m.m13 * m.m22 * m.m30 + m.m02 * m.m13 * m.m20 * m.m31 - m.m00 * m.m13 * m.m22 * m.m31 - m.m01 * m.m13 * m.m20 * m.m32 - m.m02 * m.m13 * m.m21 * m.m30 by {
      Cofactor31(m);
      Distribute(Adjugate(m).m31, m.m13, m.m00 * m.m21 * m.m32, m.m01 * m.m22 * m.m30, m.m02 * m.m20 * m.m31, m.m00 * m.m22 * m.m31, m.m01 * m.m20 * m.m32, m.m02 * m.m21 * m.m30);
    }
    assert Adjugate(m).m32 * m.m23 == m.m00 * m.m12 * m.m23 * m.m31 + m.m01 * m.m10 * m.m23 * m.m32 + m.m02 * m.m11 * m.m23 * m.m30 - m.m00 * m.m11 * m.m23 * m.m32 - m.m01 * m.m12 * m.m23 * m.m30 - m.m02 * m.m10 * m.m23 * m.m31 by {
      Cofactor32(m);
      Distribute(Adjugate(m).m32, m.m23, m.m00 * m.m12 * m.m31, m.m01 * m.m10 * m.m32, m.m02 * m.m11 * m.m30, m.m00 * m.m11 * m.m32, m.m01 * m.m12 * m.m30, m.m02 * m.m10 * m.m31);
    }
    assert Adjugate(m).m33 * m.m33 == m.m00 * m.m11 * m.m22 * m.m33 + m.m01 * m.m12 * m.m20 * m.m33 + m.m02 * m.m10 * m.m21 * m.m33 - m.m00 * m.m12 * m.m21 * m.m33 - m.m01 * m.m10 * m.m22 * m.m33 - m.m02 * m.m11 * m.m20 * m.m33 by {
      Cofactor33(m);
      Distribute(Adjugate(m).m33, m.m33, m.m00 * m.m11 * m.m22, m.m01 * m.m12 * m.m20, m.m02 * m.m10 * m.m21, m.m00 * m.m12 * m.m21, m.m01 * m.m10 * m.m22, m.m02 * m.m11 * m.m20);
    }
    AdjugateTimesMatrixSum33(m, Adjugate(m));
  }

  lemma AdjugateTimesMatrixSum33(m: Mat4, a: Mat4)
    requires a.m30 * m.m03 == m.m03 * m.m10 * m.m22 * m.m31 + m.m03 * m.m11 * m.m20 * m.m32 + m.m03 * m.m12 * m.m21 * m.m30 - m.m03 * m.m10 * m.m21 * m.m32 - m.m03 * m.m11 * m.m22 * m.m30 - m.m03 * m.m12 * m.m20 * m.m31
    requires a.m31 * m.m13 == m.m00 * m.m13 * m.m21 * m.m32 + m.m01 * m.m13 * m.m22 * m.m30 + m.m02 * m.m13 * m.m20 * m.m31 - m.m00 * m.m13 * m.m22 * m.m31 - m.m01 * m.m13 * m.m20 * m.m32 - m.m02 * m.m13 * m.m21 * m.m30
    requires a.m32 * m.m23 == m.m00 * m.m12 * m.m23 * m.m31 + m.m01 * m.m10 * m.m23 * m.m32 + m.m02 * m.m11 * m.m23 * m.m30 - m.m00 * m.m11 * m.m23 * m.m32 - m.m01 * m.m12 * m.m23 * m.m30 - m.m02 * m.m10 * m.m23 * m.m31
    requires a.m33 * m.m33 == m.m00 * m.m11 * m.m22 * m.m33 + m.m01 * m.m12 * m.m20 * m.m33 + m.m02 * m.m10 * m.m21 * m.m33 - m.m00 * m.m12 * m.m21 * m.m33 - m.m01 * m.m10 * m.m22 * m.m33 - m.m02 * m.m11 * m.m20 * m.m33
    ensures RowTimesColumn(a.m30, a.m31, a.m32, a.m33, m.m03, m.m13, m.m23, m.m33) == m.m00 * m.m11 * m.m22 * m.m33
      + m.m00 * m.m12 * m.m23 * m.m31
      + m.m00 * m.m13 * m.m21 * m.m32
      + m.m01 * m.m10 * m.m23 * m.m32
      + m.m01 * m.m12 * m.m20 * m.m33
      + m.m01 * m.m13 * m.m22 * m.m30
      + m.m02 * m.m10 * m.m21 * m.m33
      + m.m02 * m.m11 * m.m23 * m.m30
      + m.m02 * m.m13 * m.m20 * m.m31
      + m.m03 * m.m10 * m.m22 * m.m31
      + m.m03 * m.m11 * m.m20 * m.m32
      + m.m03 * m.m12 * m.m21 * m.m30
      - m.m00 * m.m11 * m.m23 * m.m32
      - m.m00 * m.m12 * m.m21 * m.m33
      - m.m00 * m.m13 * m.m22 * m.m31
      - m.m01 * m.m10 * m.m22 * m.m33
      - m.m01 * m.m12 * m.m23 * m.m30
      - m.m01 * m.m13 * m.m20 * m.m32
      - m.m02 * m.m10 * m.m23 * m.m31
      - m.m02 * m.m11 * m.m20 * m.m33
      - m.m02 * m.m13 * m.m21 * m.m30
      - m.m03 * m.m10 * m.m21 * m.m32
      - m.m03 * m.m11 * m.m22 * m.m30
      - m.m03 * m.m12 * m.m20 * m.m31
  {
  }

  lemma MatrixTimesAdjugateEntry00(m: Mat4)
    ensures Mul(m, Adjugate(m)).m00 == Determinant(m)
  {
    DeterminantExpanded(m);
    assert m.m00 * Adjugate(m).m00 == m.m00 * m.m11 * m.m22 * m.m33 + m.m00 * m.m12 * m.m23 * m.m31 + m.m00 * m.m13 * m.m21 * m.m32 - m.m00 * m.m11 * m.m23 * m.m32 - m.m00 * m.m12 * m.m21 * m.m33 - m.m00 * m.m13 * m.m22 * m.m31 by {
      Cofactor00(m);
      DistributeLeft(m.m00, Adjugate(m).m00, m.m11 * m.m22 * m.m33, m.m12 * m.m23 * m.m31, m.m13 * m.m21 * m.m32, m.m11 * m.m23 * m.m32, m.m12 * m.m21 * m.m33, m.m13 * m.m22 * m.m31);
    }
    assert m.m01 * Adjugate(m).m10 == m.m01 * m.m10 * m.m23 * m.m32 + m.m01 * m.m12 * m.m20 * m.m33 + m.m01 * m.m13 * m.m22 * m.m30 - m.m01 * m.m10 * m.m22 * m.m33 - m.m01 * m.m12 * m.m23 * m.m30 - m.m01 * m.m13 * m.m20 * m.m32 by {
      Cofactor10(m);
      DistributeLeft(m.m01, Adjugate(m).m10, m.m10 * m.m23 * m.m32, m.m12 * m.m20 * m.m33, m.m13 * m.m22 * m.m30, m.m10 * m.m22 * m.m33, m.m12 * m.m23 * m.m30, m.m13 * m.m20 * m.m32);
    }
    assert m.m02 * Adjugate(m).m20 == m.m02 * m.m10 * m.m21 * m.m33 + m.m02 * m.m11 * m.m23 * m.m30 + m.m02 * m.m13 * m.m20 * m.m31 - m.m02 * m.m10 * m.m23 * m.m31 - m.m02 * m.m11 * m.m20 * m.m33 - m.m02 * m.m13 * m.m21 * m.m30 by {
      Cofactor20(m);
      DistributeLeft(m.m02, Adjugate(m).m20, m.m10 * m.m21 * m.m33, m.m11 * m.m23 * m.m30, m.m13 * m.m20 * m.m31, m.m10 * m.m23 * m.m31, m.m11 * m.m20 * m.m33, m.m13 * m.m21 * m.m30);
    }
    assert m.m03 * Adjugate(m).m30 == m.m03 * m.m10 * m.m22 * m.m31 + m.m03 * m.m11 * m.m20 * m.m32 + m.m03 * m.m12 * m.m21 * m.m30 - m.m03 * m.m10 * m.m21 * m.m32 - m.m03 * m.m11 * m.m22 * m.m30 - m.m03 * m.m12 * m.m20 * m.m31 by {
      Cofactor30(m);
      DistributeLeft(m.m03, Adjugate(m).m30, m.m10 * m.m22 * m.m31, m.m11 * m.m20 * m.m32, m.m12 * m.m21 * m.m30, m.m10 * m.m21 * m.m32, m.m11 * m.m22 * m.m30, m.m12 * m.m20 * m.m31);
    }
    MatrixTimesAdjugateSum00(m, Adjugate(m));
  }

  lemma MatrixTimesAdjugateSum00(m: Mat4, a: Mat4)
    requires m.m00 * a.m00 == m.m00 * m.m11 * m.m22 * m.m33 + m.m00 * m.m12 * m.m23 * m.m31 + m.m00 * m.m13 * m.m21 * m.m32 - m.m00 * m.m11 * m.m23 * m.m32 - m.m00 * m.m12 * m.m21 * m.m33 - m.m00 * m.m13 * m.m22 * m.m31
    requires m.m01 * a.m10 == m.m01 * m.m10 * m.m23 * m.m32 + m.m01 * m.m12 * m.m20 * m.m33 + m.m01 * m.m13 * m.m22 * m.m30 - m.m01 * m.m10 * m.m22 * m.m33 - m.m01 * m.m12 * m.m23 * m.m30 - m.m01 * m.m13 * m.m20 * m.m32
    requires m.m02 * a.m20 == m.m02 * m.m10 * m.m21 * m.m33 + m.m02 * m.m11 * m.m23 * m.m30 + m.m02 * m.m13 * m.m20 * m.m31 - m.m02 * m.m10 * m.m23 * m.m31 - m.m02 * m.m11 * m.m20 * m.m33 - m.m02 * m.m13 * m.m21 * m.m30
    requires m.m03 * a.m30 == m.m03 * m.m10 * m.m22 * m.m31 + m.m03 * m.m11 * m.m20 * m.m32 + m.m03 * m.m12 * m.m21 * m.m30 - m.m03 * m.m10 * m.m21 * m.m32 - m.m03 * m.m11 * m.m22 * m.m30 - m.m03 * m.m12 * m.m20 * m.m31
    ensures RowTimesColumn(m.m00, m.m01, m.m02, m.m03, a.m00, a.m10, a.m20, a.m30) == m.m00 * m.m11 * m.m22 * m.m33
      + m.m00 * m.m12 * m.m23 * m.m31
      + m.m00 * m.m13 * m.m21 * m.m32
      + m.m01 * m.m10 * m.m23 * m.m32
      + m.m01 * m.m12 * m.m20 * m.m33
      + m.m01 * m.m13 * m.m22 * m.m30
      + m.m02 * m.m10 * m.m21 * m.m33
      + m.m02 * m.m11 * m.m23 * m.m30
      + m.m02 * m.m13 * m.m20 * m.m31
      + m.m03 * m.m10 * m.m22 * m.m31
      + m.m03 * m.m11 * m.m20 * m.m32
      + m.m03 * m.m12 * m.m21 * m.m30
      - m.m00 * m.m11 * m.m23 * m.m32
      - m.m00 * m.m12 * m.m21 * m.m33
      - m.m00 * m.m13 * m.m22 * m.m31
      - m.m01 * m.m10 * m.m22 * m.m33
      - m.m01 * m.m12 * m.m23 * m.m30
      - m.m01 * m.m13 * m.m20 * m.m32
      - m.m02 * m.m10 * m.m23 * m.m31
      - m.m02 * m.m11 * m.m20 * m.m33
      - m.m02 * m.m13 * m.m21 * m.m30
      - m.m03 * m.m10 * m.m21 * m.m32
      - m.m03 * m.m11 * m.m22 * m.m30
      - m.m03 * m.m12 * m.m20 * m.m31
  {
  }

  lemma MatrixTimesAdjugateEntry01(m: Mat4)
    ensures Mul(m, Adjugate(m)).m01 == 0.0
  {
    assert m.m00 * Adjugate(m).m01 == m.m00 * m.m01 * m.m23 * m.m32 + m.m00 * m.m02 * m.m21 * m.m33 + m.m00 * m.m03 * m.m22 * m.m31 - m.m00 * m.m01 * m.m22 * m.m33 - m.m00 * m.m02 * m.m23 * m.m31 - m.m00 * m.m03 * m.m21 * m.m32 by {
      Cofactor01(m);
      DistributeLeft(m.m00, Adjugate(m).m01, m.m01 * m.m23 * m.m32, m.m02 * m.m21 * m.m33, m.m03 * m.m22 * m.m31, m.m01 * m.m22 * m.m33, m.m02 * m.m23 * m.m31, m.m03 * m.m21 * m.m32);
    }
    assert m.m01 * Adjugate(m).m11 == m.m00 * m.m01 * m.m22 * m.m33 + m.m01 * m.m02 * m.m23 * m.m30 + m.m01 * m.m03 * m.m20 * m.m32 - m.m00 * m.m01 * m.m23 * m.m32 - m.m01 * m.m02 * m.m20 * m.m33 - m.m01 * m.m03 * m.m22 * m.m30 by {
      Cofactor11(m);
      DistributeLeft(m.m01, Adjugate(m).m11, m.m00 * m.m22 * m.m33, m.m02 * m.m23 * m.m30, m.m03 * m.m20 * m.m32, m.m00 * m.m23 * m.m32, m.m02 * m.m20 * m.m33, m.m03 * m.m22 * m.m30);
    }
    assert m.m02 * Adjugate(m).m21 == m.m00 * m.m02 * m.m23 * m.m31 + m.m01 * m.m02 * m.m20 * m.m33 + m.m02 * m.m03 * m.m21 * m.m30 - m.m00 * m.m02 * m.m21 * m.m33 - m.m01 * m.m02 * m.m23 * m.m30 - m.m02 * m.m03 * m.m20 * m.m31 by {
      Cofactor21(m);
      DistributeLeft(m.m02, Adjugate(m).m21, m.m00 * m.m23 * m.m31, m.m01 * m.m20 * m.m33, m.m03 * m.m21 * m.m30, m.m00 * m.m21 * m.m33, m.m01 * m.m23 * m.m30, m.m03 * m.m20 * m.m31);
    }
    assert m.m03 * Adjugate(m).m31 == m.m00 * m.m03 * m.m21 * m.m32 + m.m01 * m.m03 * m.m22 * m.m30 + m.m02 * m.m03 * m.m20 * m.m31 - m.m00 * m.m03 * m.m22 * m.m31 - m.m01 * m.m03 * m.m20 * m.m32 - m.m02 * m.m03 * m.m21 * m.m30 by {
      Cofactor31(m);
      DistributeLeft(m.m03, Adjugate(m).m31, m.m00 * m.m21 * m.m32, m.m01 * m.m22 * m.m30, m.m02 * m.m20 * m.m31, m.m00 * m.m22 * m.m31, m.m01 * m.m20 * m.m32, m.m02 * m.m21 * m.m30);
    }
    MatrixTimesAdjugateSum01(m, Adjugate(m));
  }

  lemma MatrixTimesAdjugateSum01(m: Mat4, a: Mat4)
    requires m.m00 * a.m01 == m.m00 * m.m01 * m.m23 * m.m32 + m.m00 * m.m02 * m.m21 * m.m33 + m.m00 * m.m03 * m.m22 * m.m31 - m.m00 * m.m01 * m.m22 * m.m33 - m.m00 * m.m02 * m.m23 * m.m31 - m.m00 * m.m03 * m.m21 * m.m32
    requires m.m01 * a.m11 == m.m00 * m.m01 * m.m22 * m.m33 + m.m01 * m.m02 * m.m23 * m.m30 + m.m01 * m.m03 * m.m20 * m.m32 - m.m00 * m.m01 * m.m23 * m.m32 - m.m01 * m.m02 * m.m20 * m.m33 - m.m01 * m.m03 * m.m22 * m.m30
    requires m.m02 * a.m21 == m.m00 * m.m02 * m.m23 * m.m31 + m.m01 * m.m02 * m.m20 * m.m33 + m.m02 * m.m03 * m.m21 * m.m30 - m.m00 * m.m02 * m.m21 * m.m33 - m.m01 * m.m02 * m.m23 * m.m30 - m.m02 * m.m03 * m.m20 * m.m31
    requires m.m03 * a.m31 == m.m00 * m.m03 * m.m21 * m.m32 + m.m01 * m.m03 * m.m22 * m.m30 + m.m02 * m.m03 * m.m20 * m.m31 - m.m00 * m.m03 * m.m22 * m.m31 - m.m01 * m.m03 * m.m20 * m.m32 - m.m02 * m.m03 * m.m21 * m.m30
    ensures RowTimesColumn(m.m00, m.m01, m.m02, m.m03, a.m01, a.m11, a.m21, a.m31) == 0.0
  {
  }

  lemma MatrixTimesAdjugateEntry02(m: Mat4)
    ensures Mul(m, Adjugate(m)).m02 == 0.0
  {
    assert m.m00 * Adjugate(m).m02 == m.m00 * m.m01 * m.m12 * m.m33 + m.m00 * m.m02 * m.m13 * m.m31 + m.m00 * m.m03 * m.m11 * m.m32 - m.m00 * m.m01 * m.m13 * m.m32 - m.m00 * m.m02 * m.m11 * m.m33 - m.m00 * m.m03 * m.m12 * m.m31 by {
      Cofactor02(m);
      DistributeLeft(m.m00, Adjugate(m).m02, m.m01 * m.m12 * m.m33, m.m02 * m.m13 * m.m31, m.m03 * m.m11 * m.m32, m.m01 * m.m13 * m.m32, m.m02 * m.m11 * m.m33, m.m03 * m.m12 * m.m31);
    }
    assert m.m01 * Adjugate(m).m12 == m.m00 * m.m01 * m.m13 * m.m32 + m.m01 * m.m02 * m.m10 * m.m33 + m.m01 * m.m03 * m.m12 * m.m30 - m.m00 * m.m01 * m.m12 * m.m33 - m.m01 * m.m02 * m.m13 * m.m30 - m.m01 * m.m03 * m.m10 * m.m32 by {
      Cofactor12(m);
      DistributeLeft(m.m01, Adjugate(m).m12, m.m00 * m.m13 * m.m32, m.m02 * m.m10 * m.m33, m.m03 * m.m12 * m.m30, m.m00 * m.m12 * m.m33, m.m02 * m.m13 * m.m30, m.m03 * m.m10 * m.m32);
    }
    assert m.m02 * Adjugate(m).m22 == m.m00 * m.m02 * m.m11 * m.m33 + m.m01 * m.m02 * m.m13 * m.m30 + m.m02 * m.m03 * m.m10 * m.m31 - m.m00 * m.m02 * m.m13 * m.m31 - m.m01 * m.m02 * m.m10 * m.m33 - m.m02 * m.m03 * m.m11 * m.m30 by {
      Cofactor22(m);
      DistributeLeft(m.m02, Adjugate(m).m22, m.m00 * m.m11 * m.m33, m.m01 * m.m13 * m.m30, m.m03 * m.m10 * m.m31, m.m00 * m.m13 * m.m31, m.m01 * m.m10 * m.m33, m.m03 * m.m11 * m.m30);
    }
    assert m.m03 * Adjugate(m).m32 == m.m00 * m.m03 * m.m12 * m.m31 + m.m01 * m.m03 * m.m10 * m.m32 + m.m02 * m.m03 * m.m11 * m.m30 - m.m00 * m.m03 * m.m11 * m.m32 - m.m01 * m.m03 * m.m12 * m.m30 - m.m02 * m.m03 * m.m10 * m.m31 by {
      Cofactor32(m);
      DistributeLeft(m.m03, Adjugate(m).m32, m.m00 * m.m12 * m.m31, m.m01 * m.m10 * m.m32, m.m02 * m.m11 * m.m30, m.m00 * m.m11 * m.m32, m.m01 * m.m12 * m.m30, m.m02 * m.m10 * m.m31);
    }
    MatrixTimesAdjugateSum02(m, Adjugate(m));
  }

  lemma MatrixTimesAdjugateSum02(m: Mat4, a: Mat4)
    requires m.m00 * a.m02 == m.m00 * m.m01 * m.m12 * m.m33 + m.m00 * m.m02 * m.m13 * m.m31 + m.m00 * m.m03 * m.m11 * m.m32 - m.m00 * m.m01 * m.m13 * m.m32 - m.m00 * m.m02 * m.m11 * m.m33 - m.m00 * m.m03 * m.m12 * m.m31
    requires m.m01 * a.m12 == m.m00 * m.m01 * m.m13 * m.m32 + m.m01 * m.m02 * m.m10 * m.m33 + m.m01 * m.m03 * m.m12 * m.m30 - m.m00 * m.m01 * m.m12 * m.m33 - m.m01 * m.m02 * m.m13 * m.m30 - m.m01 * m.m03 * m.m10 * m.m32
    requires m.m02 * a.m22 == m.m00 * m.m02 * m.m11 * m.m33 + m.m01 * m.m02 * m.m13 * m.m30 + m.m02 * m.m03 * m.m10 * m.m31 - m.m00 * m.m02 * m.m13 * m.m31 - m.m01 * m.m02 * m.m10 * m.m33 - m.m02 * m.m03 * m.m11 * m.m30
    requires m.m03 * a.m32 == m.m00 * m.m03 * m.m12 * m.m31 + m.m01 * m.m03 * m.m10 * m.m32 + m.m02 * m.m03 * m.m11 * m.m30 - m.m00 * m.m03 * m.m11 * m.m32 - m.m01 * m.m03 * m.m12 * m.m30 - m.m02 * m.m03 * m.m10 * m.m31
    ensures RowTimesColumn(m.m00, m.m01, m.m02, m.m03, a.m02, a.m12, a.m22, a.m32) == 0.0
  {
  }

  lemma MatrixTimesAdjugateEntry03(m: Mat4)
    ensures Mul(m, Adjugate(m)).m03 == 0.0
  {
    assert m.m00 * Adjugate(m).m03 == m.m00 * m.m01 * m.m13 * m.m22 + m.m00 * m.m02 * m.m11 * m.m23 + m.m00 * m.m03 * m.m12 * m.m21 - m.m00 * m.m01 * m.m12 * m.m23 - m.m00 * m.m02 * m.m13 * m.m21 - m.m00 * m.m03 * m.m11 * m.m22 by {
      Cofactor03(m);
      DistributeLeft(m.m00, Adjugate(m).m03, m.m01 * m.m13 * m.m22, m.m02 * m.m11 * m.m23, m.m03 * m.m12 * m.m21, m.m01 * m.m12 * m.m23, m.m02 * m.m13 * m.m21, m.m03 * m.m11 * m.m22);
    }
    assert m.m01 * Adjugate(m).m13 == m.m00 * m.m01 * m.m12 * m.m23 + m.m01 * m.m02 * m.m13 * m.m20 + m.m01 * m.m03 * m.m10 * m.m22 - m.m00 * m.m01 * m.m13 * m.m22 - m.m01 * m.m02 * m.m10 * m.m23 - m.m01 * m.m03 * m.m12 * m.m20 by {
      Cofactor13(m);
      DistributeLeft(m.m01, Adjugate(m).m13, m.m00 * m.m12 * m.m23, m.m02 * m.m13 * m.m20, m.m03 * m.m10 * m.m22, m.m00 * m.m13 * m.m22, m.m02 * m.m10 * m.m23, m.m03 * m.m12 * m.m20);
    }
    assert m.m02 * Adjugate(m).m23 == m.m00 * m.m02 * m.m13 * m.m21 + m.m01 * m.m02 * m.m10 * m.m23 + m.m02 * m.m03 * m.m11 * m.m20 - m.m00 * m.m02 * m.m11 * m.m23 - m.m01 * m.m02 * m.m13 * m.m20 - m.m02 * m.m03 * m.m10 * m.m21 by {
      Cofactor23(m);
      DistributeLeft(m.m02, Adjugate(m).m23, m.m00 * m.m13 * m.m21, m.m01 * m.m10 * m.m23, m.m03 * m.m11 * m.m20, m.m00 * m.m11 * m.m23, m.m01 * m.m13 * m.m20, m.m03 * m.m10 * m.m21);
    }
    assert m.m03 * Adjugate(m).m33 == m.m00 * m.m03 * m.m11 * m.m22 + m.m01 * m.m03 * m.m12 * m.m20 + m.m02 * m.m03 * m.m10 * m.m21 - m.m00 * m.m03 * m.m12 * m.m21 - m.m01 * m.m03 * m.m10 * m.m22 - m.m02 * m.m03 * m.m11 * m.m20 by {
      Cofactor33(m);
      DistributeLeft(m.m03, Adjugate(m).m33, m.m00 * m.m11 * m.m22, m.m01 * m.m12 * m.m20, m.m02 * m.m10 * m.m21, m.m00 * m.m12 * m.m21, m.m01 * m.m10 * m.m22, m.m02 * m.m11 * m.m20);
    }
    MatrixTimesAdjugateSum03(m, Adjugate(m));
  }

  lemma MatrixTimesAdjugateSum03(m: Mat4, a: Mat4)
    requires m.m00 * a.m03 == m.m00 * m.m01 * m.m13 * m.m22 + m.m00 * m.m02 * m.m11 * m.m23 + m.m00 * m.m03 * m.m12 * m.m21 - m.m00 * m.m01 * m.m12 * m.m23 - m.m00 * m.m02 * m.m13 * m.m21 - m.m00 * m.m03 * m.m11 * m.m22
    requires m.m01 * a.m13 == m.m00 * m.m01 * m.m12 * m.m23 + m.m01 * m.m02 * m.m13 * m.m20 + m.m01 * m.m03 * m.m10 * m.m22 - m.m00 * m.m01 * m.m13 * m.m22 - m.m01 * m.m02 * m.m10 * m.m23 - m.m01 * m.m03 * m.m12 * m.m20
    requires m.m02 * a.m23 == m.m00 * m.m02 * m.m13 * m.m21 + m.m01 * m.m02 * m.m10 * m.m23 + m.m02 * m.m03 * m.m11 * m.m20 - m.m00 * m.m02 * m.m11 * m.m23 - m.m01 * m.m02 * m.m13 * m.m20 - m.m02 * m.m03 * m.m10 * m.m21
    requires m.m03 * a.m33 == m.m00 * m.m03 * m.m11 * m.m22 + m.m01 * m.m03 * m.m12 * m.m20 + m.m02 * m.m03 * m.m10 * m.m21 - m.m00 * m.m03 * m.m12 * m.m21 - m.m01 * m.m03 * m.m10 * m.m22 - m.m02 * m.m03 * m.m11 * m.m20
    ensures RowTimesColumn(m.m00, m.m01, m.m02, m.m03, a.m03, a.m13, a.m23, a.m33) == 0.0
  {
  }

  lemma MatrixTimesAdjugateEntry10(m: Mat4)
    ensures Mul(m, Adjugate(m)).m10 == 0.0
  {
    assert m.m10 * Adjugate(m).m00 == m.m10 * m.m11 * m.m22 * m.m33 + m.m10 * m.m12 * m.m23 * m.m31 + m.m10 * m.m13 * m.m21 * m.m32 - m.m10 * m.m11 * m.m23 * m.m32 - m.m10 * m.m12 * m.m21 * m.m33 - m.m10 * m.m13 * m.m22 * m.m31 by {
      Cofactor00(m);
      DistributeLeft(m.m10, Adjugate(m).m00, m.m11 * m.m22 * m.m33, m.m12 * m.m23 * m.m31, m.m13 * m.m21 * m.m32, m.m11 * m.m23 * m.m32, m.m12 * m.m21 * m.m33, m.m13 * m.m22 * m.m31);
    }
    assert m.m11 * Adjugate(m).m10 == m.m10 * m.m11 * m.m23 * m.m32 + m.m11 * m.m12 * m.m20 * m.m33 + m.m11 * m.m13 * m.m22 * m.m30 - m.m10 * m.m11 * m.m22 * m.m33 - m.m11 * m.m12 * m.m23 * m.m30 - m.m11 * m.m13 * m.m20 * m.m32 by {
      Cofactor10(m);
      DistributeLeft(m.m11, Adjugate(m).m10, m.m10 * m.m23 * m.m32, m.m12 * m.m20 * m.m33, m.m13 * m.m22 * m.m30, m.m10 * m.m22 * m.m33, m.m12 * m.m23 * m.m30, m.m13 * m.m20 * m.m32);
    }
    assert m.m12 * Adjugate(m).m20 == m.m10 * m.m12 * m.m21 * m.m33 + m.m11 * m.m12 * m.m23 * m.m30 + m.m12 * m.m13 * m.m20 * m.m31 - m.m10 * m.m12 * m.m23 * m.m31 - m.m11 * m.m12 * m.m20 * m.m33 - m.m12 * m.m13 * m.m21 * m.m30 by {
      Cofactor20(m);
      DistributeLeft(m.m12, Adjugate(m).m20, m.m10 * m.m21 * m.m33, m.m11 * m.m23 * m.m30, m.m13 * m.m20 * m.m31, m.m10 * m.m23 * m.m31, m.m11 * m.m20 * m.m33, m.m13 * m.m21 * m.m30);
    }
    assert m.m13 * Adjugate(m).m30 == m.m10 * m.m13 * m.m22 * m.m31 + m.m11 * m.m13 * m.m20 * m.m32 + m.m12 * m.m13 * m.m21 * m.m30 - m.m10 * m.m13 * m.m21 * m.m32 - m.m11 * m.m13 * m.m22 * m.m30 - m.m12 * m.m13 * m.m20 * m.m31 by {
      Cofactor30(m);
      DistributeLeft(m.m13, Adjugate(m).m30, m.m10 * m.m22 * m.m31, m.m11 * m.m20 * m.m32, m.m12 * m.m21 * m.m30, m.m10 * m.m21 * m.m32, m.m11 * m.m22 * m.m30, m.m12 * m.m20 * m.m31);
    }
    MatrixTimesAdjugateSum10(m, Adjugate(m));
  }

  lemma MatrixTimesAdjugateSum10(m: Mat4, a: Mat4)
    requires m.m10 * a.m00 == m.m10 * m.m11 * m.m22 * m.m33 + m.m10 * m.m12 * m.m23 * m.m31 + m.m10 * m.m13 * m.m21 * m.m32 - m.m10 * m.m11 * m.m23 * m.m32 - m.m10 * m.m12 * m.m21 * m.m33 - m.m10 * m.m13 * m.m22 * m.m31
    requires m.m11 * a.m10 == m.m10 * m.m11 * m.m23 * m.m32 + m.m11 * m.m12 * m.m20 * m.m33 + m.m11 * m.m13 * m.m22 * m.m30 - m.m10 * m.m11 * m.m22 * m.m33 - m.m11 * m.m12 * m.m23 * m.m30 - m.m11 * m.m13 * m.m20 * m.m32
    requires m.m12 * a.m20 == m.m10 * m.m12 * m.m21 * m.m33 + m.m11 * m.m12 * m.m23 * m.m30 + m.m12 * m.m13 * m.m20 * m.m31 - m.m10 * m.m12 * m.m23 * m.m31 - m.m11 * m.m12 * m.m20 * m.m33 - m.m12 * m.m13 * m.m21 * m.m30
    requires m.m13 * a.m30 == m.m10 * m.m13 * m.m22 * m.m31 + m.m11 * m.m13 * m.m20 * m.m32 + m.m12 * m.m13 * m.m21 * m.m30 - m.m10 * m.m13 * m.m21 * m.m32 - m.m11 * m.m13 * m.m22 * m.m30 - m.m12 * m.m13 * m.m20 * m.m31
    ensures RowTimesColumn(m.m10, m.m11, m.m12, m.m13, a.m00, a.m10, a.m20, a.m30) == 0.0
  {
  }

  lemma MatrixTimesAdjugateEntry11(m: Mat4)
    ensures Mul(m, Adjugate(m)).m11 == Determinant(m)
  {
    DeterminantExpanded(m);
    assert m.m10 * Adjugate(m).m01 == m.m01 * m.m10 * m.m23 * m.m32 + m.m02 * m.m10 * m.m21 * m.m33 + m.m03 * m.m10 * m.m22 * m.m31 - m.m01 * m.m10 * m.m22 * m.m33 - m.m02 * m.m10 * m.m23 * m.m31 - m.m03 * m.m10 * m.m21 * m.m32 by {
      Cofactor01(m);
      DistributeLeft(m.m10, Adjugate(m).m01, m.m01 * m.m23 * m.m32, m.m02 * m.m21 * m.m33, m.m03 * m.m22 * m.m31, m.m01 * m.m22 * m.m33, m.m02 * m.m23 * m.m31, m.m03 * m.m21 * m.m32);
    }
    assert m.m11 * Adjugate(m).m11 == m.m00 * m.m11 * m.m22 * m.m33 + m.m02 * m.m11 * m.m23 * m.m30 + m.m03 * m.m11 * m.m20 * m.m32 - m.m00 * m.m11 * m.m23 * m.m32 - m.m02 * m.m11 * m.m20 * m.m33 - m.m03 * m.m11 * m.m22 * m.m30 by {
      Cofactor11(m);
      DistributeLeft(m.m11, Adjugate(m).m11, m.m00 * m.m22 * m.m33, m.m02 * m.m23 * m.m30, m.m03 * m.m20 * m.m32, m.m00 * m.m23 * m.m32, m.m02 * m.m20 * m.m33, m.m03 * m.m22 * m.m30);
    }
    assert m.m12 * Adjugate(m).m21 == m.m00 * m.m12 * m.m23 * m.m31 + m.m01 * m.m12 * m.m20 * m.m33 + m.m03 * m.m12 * m.m21 * m.m30 - m.m00 * m.m12 * m.m21 * m.m33 - m.m01 * m.m12 * m.m23 * m.m30 - m.m03 * m.m12 * m.m20 * m.m31 by {
      Cofactor21(m);
      DistributeLeft(m.m12, Adjugate(m).m21, m.m00 * m.m23 * m.m31, m.m01 * m.m20 * m.m33, m.m03 * m.m21 * m.m30, m.m00 * m.m21 * m.m33, m.m01 * m.m23 * m.m30, m.m03 * m.m20 * m.m31);
    }
    assert m.m13 * Adjugate(m).m31 == m.m00 * m.m13 * m.m21 * m.m32 + m.m01 * m.m13 * m.m22 * m.m30 + m.m02 * m.m13 * m.m20 * m.m31 - m.m00 * m.m13 * m.m22 * m.m31 - m.m01 * m.m13 * m.m20 * m.m32 - m.m02 * m.m13 * m.m21 * m.m30 by {
      Cofactor31(m);
      DistributeLeft(m.m13, Adjugate(m).m31, m.m00 * m.m21 * m.m32, m.m01 * m.m22 * m.m30, m.m02 * m.m20 * m.m31, m.m00 * m.m22 * m.m31, m.m01 * m.m20 * m.m32, m.m02 * m.m21 * m.m30);
    }
    MatrixTimesAdjugateSum11(m, Adjugate(m));
  }

  lemma MatrixTimesAdjugateSum11(m: Mat4, a: Mat4)
    requires m.m10 * a.m01 == m.m01 * m.m10 * m.m23 * m.m32 + m.m02 * m.m10 * m.m21 * m.m33 + m.m03 * m.m10 * m.m22 * m.m31 - m.m01 * m.m10 * m.m22 * m.m33 - m.m02 * m.m10 * m.m23 * m.m31 - m.m03 * m.m10 * m.m21 * m.m32
    requires m.m11 * a.m11 == m.m00 * m.m11 * m.m22 * m.m33 + m.m02 * m.m11 * m.m23 * m.m30 + m.m03 * m.m11 * m.m20 * m.m32 - m.m00 * m.m11 * m.m23 * m.m32 - m.m02 * m.m11 * m.m20 * m.m33 - m.m03 * m.m11 * m.m22 * m.m30
    requires m.m12 * a.m21 == m.m00 * m.m12 * m.m23 * m.m31 + m.m01 * m.m12 * m.m20 * m.m33 + m.m03 * m.m12 * m.m21 * m.m30 - m.m00 * m.m12 * m.m21 * m.m33 - m.m01 * m.m12 * m.m23 * m.m30 - m.m03 * m.m12 * m.m20 * m.m31
    requires m.m13 * a.m31 == m.m00 * m.m13 * m.m21 * m.m32 + m.m01 * m.m13 * m.m22 * m.m30 + m.m02 * m.m13 * m.m20 * m.m31 - m.m00 * m.m13 * m.m22 * m.m31 - m.m01 * m.m13 * m.m20 * m.m32 - m.m02 * m.m13 * m.m21 * m.m30
    ensures RowTimesColumn(m.m10, m.m11, m.m12, m.m13, a.m01, a.m11, a.m21, a.m31) == m.m00 * m.m11 * m.m22 * m.m33
      + m.m00 * m.m12 * m.m23 * m.m31
      + m.m00 * m.m13 * m.m21 * m.m32
      + m.m01 * m.m10 * m.m23 * m.m32
      + m.m01 * m.m12 * m.m20 * m.m33
      + m.m01 * m.m13 * m.m22 * m.m30
      + m.m02 * m.m10 * m.m21 * m.m33
      + m.m02 * m.m11 * m.m23 * m.m30
      + m.m02 * m.m13 * m.m20 * m.m31
      + m.m03 * m.m10 * m.m22 * m.m31
      + m.m03 * m.m11 * m.m20 * m.m32
      + m.m03 * m.m12 * m.m21 * m.m30
      - m.m00 * m.m11 * m.m23 * m.m32
      - m.m00 * m.m12 * m.m21 * m.m33
      - m.m00 * m.m13 * m.m22 * m.m31
      - m.m01 * m.m10 * m.m22 * m.m33
      - m.m01 * m.m12 * m.m23 * m.m30
      - m.m01 * m.m13 * m.m20 * m.m32
      - m.m02 * m.m10 * m.m23 * m.m31
      - m.m02 * m.m11 * m.m20 * m.m33
      - m.m02 * m.m13 * m.m21 * m.m30
      - m.m03 * m.m10 * m.m21 * m.m32
      - m.m03 * m.m11 * m.m22 * m.m30
      - m.m03 * m.m12 * m.m20 * m.m31
  {
  }

  lemma MatrixTimesAdjugateEntry12(m: Mat4)
    ensures Mul(m, Adjugate(m)).m12 == 0.0
  {
    assert m.m10 * Adjugate(m).m02 == m.m01 * m.m10 * m.m12 * m.m33 + m.m02 * m.m10 * m.m13 * m.m31 + m.m03 * m.m10 * m.m11 * m.m32 - m.m01 * m.m10 * m.m13 * m.m32 - m.m02 * m.m10 * m.m11 * m.m33 - m.m03 * m.m10 * m.m12 * m.m31 by {
      Cofactor02(m);
      DistributeLeft(m.m10, Adjugate(m).m02, m.m01 * m.m12 * m.m33, m.m02 * m.m13 * m.m31, m.m03 * m.m11 * m.m32, m.m01 * m.m13 * m.m32, m.m02 * m.m11 * m.m33, m.m03 * m.m12 * m.m31);
    }
    assert m.m11 * Adjugate(m).m12 == m.m00 * m.m11 * m.m13 * m.m32 + m.m02 * m.m10 * m.m11 * m.m33 + m.m03 * m.m11 * m.m12 * m.m30 - m.m00 * m.m11 * m.m12 * m.m33 - m.m02 * m.m11 * m.m13 * m.m30 - m.m03 * m.m10 * m.m11 * m.m32 by {
      Cofactor12(m);
      DistributeLeft(m.m11, Adjugate(m).m12, m.m00 * m.m13 * m.m32, m.m02 * m.m10 * m.m33, m.m03 * m.m12 * m.m30, m.m00 * m.m12 * m.m33, m.m02 * m.m13 * m.m30, m.m03 * m.m10 * m.m32);
    }
    assert m.m12 * Adjugate(m).m22 == m.m00 * m.m11 * m.m12 * m.m33 + m.m01 * m.m12 * m.m13 * m.m30 + m.m03 * m.m10 * m.m12 * m.m31 - m.m00 * m.m12 * m.m13 * m.m31 - m.m01 * m.m10 * m.m12 * m.m33 - m.m03 * m.m11 * m.m12 * m.m30 by {
      Cofactor22(m);
      DistributeLeft(m.m12, Adjugate(m).m22, m.m00 * m.m11 * m.m33, m.m01 * m.m13 * m.m30, m.m03 * m.m10 * m.m31, m.m00 * m.m13 * m.m31, m.m01 * m.m10 * m.m33, m.m03 * m.m11 * m.m30);
    }
    assert m.m13 * Adjugate(m).m32 == m.m00 * m.m12 * m.m13 * m.m31 + m.m01 * m.m10 * m.m13 * m.m32 + m.m02 * m.m11 * m.m13 * m.m30 - m.m00 * m.m11 * m.m13 * m.m32 - m.m01 * m.m12 * m.m13 * m.m30 - m.m02 * m.m10 * m.m13 * m.m31 by {
      Cofactor32(m);
      DistributeLeft(m.m13, Adjugate(m).m32, m.m00 * m.m12 * m.m31, m.m01 * m.m10 * m.m32, m.m02 * m.m11 * m.m30, m.m00 * m.m11 * m.m32, m.m01 * m.m12 * m.m30, m.m02 * m.m10 * m.m31);
    }
    MatrixTimesAdjugateSum12(m, Adjugate(m));
  }

  lemma MatrixTimesAdjugateSum12(m: Mat4, a: Mat4)
    requires m.m10 * a.m02 == m.m01 * m.m10 * m.m12 * m.m33 + m.m02 * m.m10 * m.m13 * m.m31 + m.m03 * m.m10 * m.m11 * m.m32 - m.m01 * m.m10 * m.m13 * m.m32 - m.m02 * m.m10 * m.m11 * m.m33 - m.m03 * m.m10 * m.m12 * m.m31
    requires m.m11 * a.m12 == m.m00 * m.m11 * m.m13 * m.m32 + m.m02 * m.m10 * m.m11 * m.m33 + m.m03 * m.m11 * m.m12 * m.m30 - m.m00 * m.m11 * m.m12 * m.m33 - m.m02 * m.m11 * m.m13 * m.m30 - m.m03 * m.m10 * m.m11 * m.m32
    requires m.m12 * a.m22 == m.m00 * m.m11 * m.m12 * m.m33 + m.m01 * m.m12 * m.m13 * m.m30 + m.m03 * m.m10 * m.m12 * m.m31 - m.m00 * m.m12 * m.m13 * m.m31 - m.m01 * m.m10 * m.m12 * m.m33 - m.m03 * m.m11 * m.m12 * m.m30
    requires m.m13 * a.m32 == m.m00 * m.m12 * m.m13 * m.m31 + m.m01 * m.m10 * m.m13 * m.m32 + m.m02 * m.m11 * m.m13 * m.m30 - m.m00 * m.m11 * m.m13 * m.m32 - m.m01 * m.m12 * m.m13 * m.m30 - m.m02 * m.m10 * m.m13 * m.m31
    ensures RowTimesColumn(m.m10, m.m11, m.m12, m.m13, a.m02, a.m12, a.m22, a.m32) == 0.0
  {
  }

  lemma MatrixTimesAdjugateEntry13(m: Mat4)
    ensures Mul(m, Adjugate(m)).m13 == 0.0
  {
    assert m.m10 * Adjugate(m).m03 == m.m01 * m.m10 * m.m13 * m.m22 + m.m02 * m.m10 * m.m11 * m.m23 + m.m03 * m.m10 * m.m12 * m.m21 - m.m01 * m.m10 * m.m12 * m.m23 - m.m02 * m.m10 * m.m13 * m.m21 - m.m03 * m.m10 * m.m11 * m.m22 by {
      Cofactor03(m);
      DistributeLeft(m.m10, Adjugate(m).m03, m.m01 * m.m13 * m.m22, m.m02 * m.m11 * m.m23, m.m03 * m.m12 * m.m21, m.m01 * m.m12 * m.m23, m.m02 * m.m13 * m.m21, m.m03 * m.m11 * m.m22);
    }
    assert m.m11 * Adjugate(m).m13 == m.m00 * m.m11 * m.m12 * m.m23 + m.m02 * m.m11 * m.m13 * m.m20 + m.m03 * m.m10 * m.m11 * m.m22 - m.m00 * m.m11 * m.m13 * m.m22 - m.m02 * m.m10 * m.m11 * m.m23 - m.m03 * m.m11 * m.m12 * m.m20 by {
      Cofactor13(m);
      DistributeLeft(m.m11, Adjugate(m).m13, m.m00 * m.m12 * m.m23, m.m02 * m.m13 * m.m20, m.m03 * m.m10 * m.m22, m.m00 * m.m13 * m.m22, m.m02 * m.m10 * m.m23, m.m03 * m.m12 * m.m20);
    }
    assert m.m12 * Adjugate(m).m23 == m.m00 * m.m12 * m.m13 * m.m21 + m.m01 * m.m10 * m.m12 * m.m23 + m.m03 * m.m11 * m.m12 * m.m20 - m.m00 * m.m11 * m.m12 * m.m23 - m.m01 * m.m12 * m.m13 * m.m20 - m.m03 * m.m10 * m.m12 * m.m21 by {
      Cofactor23(m);
      DistributeLeft(m.m12, Adjugate(m).m23, m.m00 * m.m13 * m.m21, m.m01 * m.m10 * m.m23, m.m03 * m.m11 * m.m20, m.m00 * m.m11 * m.m23, m.m01 * m.m13 * m.m20, m.m03 * m.m10 * m.m21);
    }
    assert m.m13 * Adjugate(m).m33 == m.m00 * m.m11 * m.m13 * m.m22 + m.m01 * m.m12 * m.m13 * m.m20 + m.m02 * m.m10 * m.m13 * m.m21 - m.m00 * m.m12 * m.m13 * m.m21 - m.m01 * m.m10 * m.m13 * m.m22 - m.m02 * m.m11 * m.m13 * m.m20 by {
      Cofactor33(m);
      DistributeLeft(m.m13, Adjugate(m).m33, m.m00 * m.m11 * m.m22, m.m01 * m.m12 * m.m20, m.m02 * m.m10 * m.m21, m.m00 * m.m12 * m.m21, m.m01 * m.m10 * m.m22, m.m02 * m.m11 * m.m20);
    }
    MatrixTimesAdjugateSum13(m, Adjugate(m));
  }

  lemma MatrixTimesAdjugateSum13(m: Mat4, a: Mat4)
    requires m.m10 * a.m03 == m.m01 * m.m10 * m.m13 * m.m22 + m.m02 * m.m10 * m.m11 * m.m23 + m.m03 * m.m10 * m.m12 * m.m21 - m.m01 * m.m10 * m.m12 * m.m23 - m.m02 * m.m10 * m.m13 * m.m21 - m.m03 * m.m10 * m.m11 * m.m22
    requires m.m11 * a.m13 == m.m00 * m.m11 * m.m12 * m.m23 + m.m02 * m.m11 * m.m13 * m.m20 + m.m03 * m.m10 * m.m11 * m.m22 - m.m00 * m.m11 * m.m13 * m.m22 - m.m02 * m.m10 * m.m11 * m.m23 - m.m03 * m.m11 * m.m12 * m.m20
    requires m.m12 * a.m23 == m.m00 * m.m12 * m.m13 * m.m21 + m.m01 * m.m10 * m.m12 * m.m23 + m.m03 * m.m11 * m.m12 * m.m20 - m.m00 * m.m11 * m.m12 * m.m23 - m.m01 * m.m12 * m.m13 * m.m20 - m.m03 * m.m10 * m.m12 * m.m21
    requires m.m13 * a.m33 == m.m00 * m.m11 * m.m13 * m.m22 + m.m01 * m.m12 * m.m13 * m.m20 + m.m02 * m.m10 * m.m13 * m.m21 - m.m00 * m.m12 * m.m13 * m.m21 - m.m01 * m.m10 * m.m13 * m.m22 - m.m02 * m.m11 * m.m13 * m.m20
    ensures RowTimesColumn(m.m10, m.m11, m.m12, m.m13, a.m03, a.m13, a.m23, a.m33) == 0.0
  {
  }

  lemma MatrixTimesAdjugateEntry20(m: Mat4)
    ensures Mul(m, Adjugate(m)).m20 == 0.0
  {
    assert m.m20 * Adjugate(m).m00 == m.m11 * m.m20 * m.m22 * m.m33 + m.m12 * m.m20 * m.m23 * m.m31 + m.m13 * m.m20 * m.m21 * m.m32 - m.m11 * m.m20 * m.m23 * m.m32 - m.m12 * m.m20 * m.m21 * m.m33 - m.m13 * m.m20 * m.m22 * m.m31 by {
      Cofactor00(m);
      DistributeLeft(m.m20, Adjugate(m).m00, m.m11 * m.m22 * m.m33, m.m12 * m.m23 * m.m31, m.m13 * m.m21 * m.m32, m.m11 * m.m23 * m.m32, m.m12 * m.m21 * m.m33, m.m13 * m.m22 * m.m31);
    }
    assert m.m21 * Adjugate(m).m10 == m.m10 * m.m21 * m.m23 * m.m32 + m.m12 * m.m20 * m.m21 * m.m33 + m.m13 * m.m21 * m.m22 * m.m30 - m.m10 * m.m21 * m.m22 * m.m33 - m.m12 * m.m21 * m.m23 * m.m30 - m.m13 * m.m20 * m.m21 * m.m32 by {
      Cofactor10(m);
      DistributeLeft(m.m21, Adjugate(m).m10, m.m10 * m.m23 * m.m32, m.m12 * m.m20 * m.m33, m.m13 * m.m22 * m.m30, m.m10 * m.m22 * m.m33, m.m12 * m.m23 * m.m30, m.m13 * m.m20 * m.m32);
    }
    assert m.m22 * Adjugate(m).m20 == m.m10 * m.m21 * m.m22 * m.m33 + m.m11 * m.m22 * m.m23 * m.m30 + m.m13 * m.m20 * m.m22 * m.m31 - m.m10 * m.m22 * m.m23 * m.m31 - m.m11 * m.m20 * m.m22 * m.m33 - m.m13 * m.m21 * m.m22 * m.m30 by {
      Cofactor20(m);
      DistributeLeft(m.m22, Adjugate(m).m20, m.m10 * m.m21 * m.m33, m.m11 * m.m23 * m.m30, m.m13 * m.m20 * m.m31, m.m10 * m.m23 * m.m31, m.m11 * m.m20 * m.m33, m.m13 * m.m21 * m.m30);
    }
    assert m.m23 * Adjugate(m).m30 == m.m10 * m.m22 * m.m23 * m.m31 + m.m11 * m.m20 * m.m23 * m.m32 + m.m12 * m.m21 * m.m23 * m.m30 - m.m10 * m.m21 * m.m23 * m.m32 - m.m11 * m.m22 * m.m23 * m.m30 - m.m12 * m.m20 * m.m23 * m.m31 by {
      Cofactor30(m);
      DistributeLeft(m.m23, Adjugate(m).m30, m.m10 * m.m22 * m.m31, m.m11 * m.m20 * m.m32, m.m12 * m.m21 * m.m30, m.m10 * m.m21 * m.m32, m.m11 * m.m22 * m.m30, m.m12 * m.m20 * m.m31);
    }
    MatrixTimesAdjugateSum20(m, Adjugate(m));
  }

  lemma MatrixTimesAdjugateSum20(m: Mat4, a: Mat4)
    requires m.m20 * a.m00 == m.m11 * m.m20 * m.m22 * m.m33 + m.m12 * m.m20 * m.m23 * m.m31 + m.m13 * m.m20 * m.m21 * m.m32 - m.m11 * m.m20 * m.m23 * m.m32 - m.m12 * m.m20 * m.m21 * m.m33 - m.m13 * m.m20 * m.m22 * m.m31
    requires m.m21 * a.m10 == m.m10 * m.m21 * m.m23 * m.m32 + m.m12 * m.m20 * m.m21 * m.m33 + m.m13 * m.m21 * m.m22 * m.m30 - m.m10 * m.m21 * m.m22 * m.m33 - m.m12 * m.m21 * m.m23 * m.m30 - m.m13 * m.m20 * m.m21 * m.m32
    requires m.m22 * a.m20 == m.m10 * m.m21 * m.m22 * m.m33 + m.m11 * m.m22 * m.m23 * m.m30 + m.m13 * m.m20 * m.m22 * m.m31 - m.m10 * m.m22 * m.m23 * m.m31 - m.m11 * m.m20 * m.m22 * m.m33 - m.m13 * m.m21 * m.m22 * m.m30
    requires m.m23 * a.m30 == m.m10 * m.m22 * m.m23 * m.m31 + m.m11 * m.m20 * m.m23 * m.m32 + m.m12 * m.m21 * m.m23 * m.m30 - m.m10 * m.m21 * m.m23 * m.m32 - m.m11 * m.m22 * m.m23 * m.m30 - m.m12 * m.m20 * m.m23 * m.m31
    ensures RowTimesColumn(m.m20, m.m21, m.m22, m.m23, a.m00, a.m10, a.m20, a.m30) == 0.0
  {
  }

  lemma MatrixTimesAdjugateEntry21(m: Mat4)
    ensures Mul(m, Adjugate(m)).m21 == 0.0
  {
    assert m.m20 * Adjugate(m).m01 == m.m01 * m.m20 * m.m23 * m.m32 + m.m02 * m.m20 * m.m21 * m.m33 + m.m03 * m.m20 * m.m22 * m.m31 - m.m01 * m.m20 * m.m22 * m.m33 - m.m02 * m.m20 * m.m23 * m.m31 - m.m03 * m.m20 * m.m21 * m.m32 by {
      Cofactor01(m);
      DistributeLeft(m.m20, Adjugate(m).m01, m.m01 * m.m23 * m.m32, m.m02 * m.m21 * m.m33, m.m03 * m.m22 * m.m31, m.m01 * m.m22 * m.m33, m.m02 * m.m23 * m.m31, m.m03 * m.m21 * m.m32);
    }
    assert m.m21 * Adjugate(m).m11 == m.m00 * m.m21 * m.m22 * m.m33 + m.m02 * m.m21 * m.m23 * m.m30 + m.m03 * m.m20 * m.m21 * m.m32 - m.m00 * m.m21 * m.m23 * m.m32 - m.m02 * m.m20 * m.m21 * m.m33 - m.m03 * m.m21 * m.m22 * m.m30 by {
      Cofactor11(m);
      DistributeLeft(m.m21, Adjugate(m).m11, m.m00 * m.m22 * m.m33, m.m02 * m.m23 * m.m30, m.m03 * m.m20 * m.m32, m.m00 * m.m23 * m.m32, m.m02 * m.m20 * m.m33, m.m03 * m.m22 * m.m30);
    }
    assert m.m22 * Adjugate(m).m21 == m.m00 * m.m22 * m.m23 * m.m31 + m.m01 * m.m20 * m.m22 * m.m33 + m.m03 * m.m21 * m.m22 * m.m30 - m.m00 * m.m21 * m.m22 * m.m33 - m.m01 * m.m22 * m.m23 * m.m30 - m.m03 * m.m20 * m.m22 * m.m31 by {
      Cofactor21(m);
      DistributeLeft(m.m22, Adjugate(m).m21, m.m00 * m.m23 * m.m31, m.m01 * m.m20 * m.m33, m.m03 * m.m21 * m.m30, m.m00 * m.m21 * m.m33, m.m01 * m.m23 * m.m30, m.m03 * m.m20 * m.m31);
    }
    assert m.m23 * Adjugate(m).m31 == m.m00 * m.m21 * m.m23 * m.m32 + m.m01 * m.m22 * m.m23 * m.m30 + m.m02 * m.m20 * m.m23 * m.m31 - m.m00 * m.m22 * m.m23 * m.m31 - m.m01 * m.m20 * m.m23 * m.m32 - m.m02 * m.m21 * m.m23 * m.m30 by {
      Cofactor31(m);
      DistributeLeft(m.m23, Adjugate(m).m31, m.m00 * m.m21 * m.m32, m.m01 * m.m22 * m.m30, m.m02 * m.m20 * m.m31, m.m00 * m.m22 * m.m31, m.m01 * m.m20 * m.m32, m.m02 * m.m21 * m.m30);
    }
    MatrixTimesAdjugateSum21(m, Adjugate(m));
  }

  lemma MatrixTimesAdjugateSum21(m: Mat4, a: Mat4)
    requires m.m20 * a.m01 == m.m01 * m.m20 * m.m23 * m.m32 + m.m02 * m.m20 * m.m21 * m.m33 + m.m03 * m.m20 * m.m22 * m.m31 - m.m01 * m.m20 * m.m22 * m.m33 - m.m02 * m.m20 * m.m23 * m.m31 - m.m03 * m.m20 * m.m21 * m.m32
    requires m.m21 * a.m11 == m.m00 * m.m21 * m.m22 * m.m33 + m.m02 * m.m21 * m.m23 * m.m30 + m.m03 * m.m20 * m.m21 * m.m32 - m.m00 * m.m21 * m.m23 * m.m32 - m.m02 * m.m20 * m.m21 * m.m33 - m.m03 * m.m21 * m.m22 * m.m30
    requires m.m22 * a.m21 == m.m00 * m.m22 * m.m23 * m.m31 + m.m01 * m.m20 * m.m22 * m.m33 + m.m03 * m.m21 * m.m22 * m.m30 - m.m00 * m.m21 * m.m22 * m.m33 - m.m01 * m.m22 * m.m23 * m.m30 - m.m03 * m.m20 * m.m22 * m.m31
    requires m.m23 * a.m31 == m.m00 * m.m21 * m.m23 * m.m32 + m.m01 * m.m22 * m.m23 * m.m30 + m.m02 * m.m20 * m.m23 * m.m31 - m.m00 * m.m22 * m.m23 * m.m31 - m.m01 * m.m20 * m.m23 * m.m32 - m.m02 * m.m21 * m.m23 * m.m30
    ensures RowTimesColumn(m.m20, m.m21, m.m22, m.m23, a.m01, a.m11, a.m21, a.m31) == 0.0
  {
  }

  lemma MatrixTimesAdjugateEntry22(m: Mat4)
    ensures Mul(m, Adjugate(m)).m22 == Determinant(m)
  {
    DeterminantExpanded(m);
    assert m.m20 * Adjugate(m).m02 == m.m01 * m.m12 * m.m20 * m.m33 + m.m02 * m.m13 * m.m20 * m.m31 + m.m03 * m.m11 * m.m20 * m.m32 - m.m01 * m.m13 * m.m20 * m.m32 - m.m02 * m.m11 * m.m20 * m.m33 - m.m03 * m.m12 * m.m20 * m.m31 by {
      Cofactor02(m);
      DistributeLeft(m.m20, Adjugate(m).m02, m.m01 * m.m12 * m.m33, m.m02 * m.m13 * m.m31, m.m03 * m.m11 * m.m32, m.m01 * m.m13 * m.m32, m.m02 * m.m11 * m.m33, m.m03 * m.m12 * m.m31);
    }
    assert m.m21 * Adjugate(m).m12 == m.m00 * m.m13 * m.m21 * m.m32 + m.m02 * m.m10 * m.m21 * m.m33 + m.m03 * m.m12 * m.m21 * m.m30 - m.m00 * m.m12 * m.m21 * m.m33 - m.m02 * m.m13 * m.m21 * m.m30 - m.m03 * m.m10 * m.m21 * m.m32 by {
      Cofactor12(m);
      DistributeLeft(m.m21, Adjugate(m).m12, m.m00 * m.m13 * m.m32, m.m02 * m.m10 * m.m33, m.m03 * m.m12 * m.m30, m.m00 * m.m12 * m.m33, m.m02 * m.m13 * m.m30, m.m03 * m.m10 * m.m32);
    }
    assert m.m22 * Adjugate(m).m22 == m.m00 * m.m11 * m.m22 * m.m33 + m.m01 * m.m13 * m.m22 * m.m30 + m.m03 * m.m10 * m.m22 * m.m31 - m.m00 * m.m13 * m.m22 * m.m31 - m.m01 * m.m10 * m.m22 * m.m33 - m.m03 * m.m11 * m.m22 * m.m30 by {
      Cofactor22(m);
      DistributeLeft(m.m22, Adjugate(m).m22, m.m00 * m.m11 * m.m33, m.m01 * m.m13 * m.m30, m.m03 * m.m10 * m.m31, m.m00 * m.m13 * m.m31, m.m01 * m.m10 * m.m33, m.m03 * m.m11 * m.m30);
    }
    assert m.m23 * Adjugate(m).m32 == m.m00 * m.m12 * m.m23 * m.m31 + m.m01 * m.m10 * m.m23 * m.m32 + m.m02 * m.m11 * m.m23 * m.m30 - m.m00 * m.m11 * m.m23 * m.m32 - m.m01 * m.m12 * m.m23 * m.m30 - m.m02 * m.m10 * m.m23 * m.m31 by {
      Cofactor32(m);
      DistributeLeft(m.m23, Adjugate(m).m32, m.m00 * m.m12 * m.m31, m.m01 * m.m10 * m.m32, m.m02 * m.m11 * m.m30, m.m00 * m.m11 * m.m32, m.m01 * m.m12 * m.m30, m.m02 * m.m10 * m.m31);
    }
    MatrixTimesAdjugateSum22(m, Adjugate(m));
  }

  lemma MatrixTimesAdjugateSum22(m: Mat4, a: Mat4)
    requires m.m20 * a.m02 == m.m01 * m.m12 * m.m20 * m.m33 + m.m02 * m.m13 * m.m20 * m.m31 + m.m03 * m.m11 * m.m20 * m.m32 - m.m01 * m.m13 * m.m20 * m.m32 - m.m02 * m.m11 * m.m20 * m.m33 - m.m03 * m.m12 * m.m20 * m.m31
    requires m.m21 * a.m12 == m.m00 * m.m13 * m.m21 * m.m32 + m.m02 * m.m10 * m.m21 * m.m33 + m.m03 * m.m12 * m.m21 * m.m30 - m.m00 * m.m12 * m.m21 * m.m33 - m.m02 * m.m13 * m.m21 * m.m30 - m.m03 * m.m10 * m.m21 * m.m32
    requires m.m22 * a.m22 == m.m00 * m.m11 * m.m22 * m.m33 + m.m01 * m.m13 * m.m22 * m.m30 + m.m03 * m.m10 * m.m22 * m.m31 - m.m00 * m.m13 * m.m22 * m.m31 - m.m01 * m.m10 * m.m22 * m.m33 - m.m03 * m.m11 * m.m22 * m.m30
    requires m.m23 * a.m32 == m.m00 * m.m12 * m.m23 * m.m31 + m.m01 * m.m10 * m.m23 * m.m32 + m.m02 * m.m11 * m.m23 * m.m30 - m.m00 * m.m11 * m.m23 * m.m32 - m.m01 * m.m12 * m.m23 * m.m30 - m.m02 * m.m10 * m.m23 * m.m31
    ensures RowTimesColumn(m.m20, m.m21, m.m22, m.m23, a.m02, a.m12, a.m22, a.m32) == m.m00 * m.m11 * m.m22 * m.m33
      + m.m00 * m.m12 * m.m23 * m.m31
      + m.m00 * m.m13 * m.m21 * m.m32
      + m.m01 * m.m10 * m.m23 * m.m32
      + m.m01 * m.m12 * m.m20 * m.m33
      + m.m01 * m.m13 * m.m22 * m.m30
      + m.m02 * m.m10 * m.m21 * m.m33
      + m.m02 * m.m11 * m.m23 * m.m30
      + m.m02 * m.m13 * m.m20 * m.m31
      + m.m03 * m.m10 * m.m22 * m.m31
      + m.m03 * m.m11 * m.m20 * m.m32
      + m.m03 * m.m12 * m.m21 * m.m30
      - m.m00 * m.m11 * m.m23 * m.m32
      - m.m00 * m.m12 * m.m21 * m.m33
      - m.m00 * m.m13 * m.m22 * m.m31
      - m.m01 * m.m10 * m.m22 * m.m33
      - m.m01 * m.m12 * m.m23 * m.m30
      - m.m01 * m.m13 * m.m20 * m.m32
      - m.m02 * m.m10 * m.m23 * m.m31
      - m.m02 * m.m11 * m.m20 * m.m33
      - m.m02 * m.m13 * m.m21 * m.m30
      - m.m03 * m.m10 * m.m21 * m.m32
      - m.m03 * m.m11 * m.m22 * m.m30
      - m.m03 * m.m12 * m.m20 * m.m31
  {
  }

  lemma MatrixTimesAdjugateEntry23(m: Mat4)
    ensures Mul(m, Adjugate(m)).m23 == 0.0
  {
    assert m.m20 * Adjugate(m).m03 == m.m01 * m.m13 * m.m20 * m.m22 + m.m02 * m.m11 * m.m20 * m.m23 + m.m03 * m.m12 * m.m20 * m.m21 - m.m01 * m.m12 * m.m20 * m.m23 - m.m02 * m.m13 * m.m20 * m.m21 - m.m03 * m.m11 * m.m20 * m.m22 by {
      Cofactor03(m);
      DistributeLeft(m.m20, Adjugate(m).m03, m.m01 * m.m13 * m.m22, m.m02 * m.m11 * m.m23, m.m03 * m.m12 * m.m21, m.m01 * m.m12 * m.m23, m.m02 * m.m13 * m.m21, m.m03 * m.m11 * m.m22);
    }
    assert m.m21 * Adjugate(m).m13 == m.m00 * m.m12 * m.m21 * m.m23 + m.m02 * m.m13 * m.m20 * m.m21 + m.m03 * m.m10 * m.m21 * m.m22 - m.m00 * m.m13 * m.m21 * m.m22 - m.m02 * m.m10 * m.m21 * m.m23 - m.m03 * m.m12 * m.m20 * m.m21 by {
      Cofactor13(m);
      DistributeLeft(m.m21, Adjugate(m).m13, m.m00 * m.m12 * m.m23, m.m02 * m.m13 * m.m20, m.m03 * m.m10 * m.m22, m.m00 * m.m13 * m.m22, m.m02 * m.m10 * m.m23, m.m03 * m.m12 * m.m20);
    }
    assert m.m22 * Adjugate(m).m23 == m.m00 * m.m13 * m.m21 * m.m22 + m.m01 * m.m10 * m.m22 * m.m23 + m.m03 * m.m11 * m.m20 * m.m22 - m.m00 * m.m11 * m.m22 * m.m23 - m.m01 * m.m13 * m.m20 * m.m22 - m.m03 * m.m10 * m.m21 * m.m22 by {
      Cofactor23(m);
      DistributeLeft(m.m22, Adjugate(m).m23, m.m00 * m.m13 * m.m21, m.m01 * m.m10 * m.m23, m.m03 * m.m11 * m.m20, m.m00 * m.m11 * m.m23, m.m01 * m.m13 * m.m20, m.m03 * m.m10 * m.m21);
    }
    assert m.m23 * Adjugate(m).m33 == m.m00 * m.m11 * m.m22 * m.m23 + m.m01 * m.m12 * m.m20 * m.m23 + m.m02 * m.m10 * m.m21 * m.m23 - m.m00 * m.m12 * m.m21 * m.m23 - m.m01 * m.m10 * m.m22 * m.m23 - m.m02 * m.m11 * m.m20 * m.m23 by {
      Cofactor33(m);
      DistributeLeft(m.m23, Adjugate(m).m33, m.m00 * m.m11 * m.m22, m.m01 * m.m12 * m.m20, m.m02 * m.m10 * m.m21, m.m00 * m.m12 * m.m21, m.m01 * m.m10 * m.m22, m.m02 * m.m11 * m.m20);
    }
    MatrixTimesAdjugateSum23(m, Adjugate(m));
  }

  lemma MatrixTimesAdjugateSum23(m: Mat4, a: Mat4)
    requires m.m20 * a.m03 == m.m01 * m.m13 * m.m20 * m.m22 + m.m02 * m.m11 * m.m20 * m.m23 + m.m03 * m.m12 * m.m20 * m.m21 - m.m01 * m.m12 * m.m20 * m.m23 - m.m02 * m.m13 * m.m20 * m.m21 - m.m03 * m.m11 * m.m20 * m.m22
    requires m.m21 * a.m13 == m.m00 * m.m12 * m.m21 * m.m23 + m.m02 * m.m13 * m.m20 * m.m21 + m.m03 * m.m10 * m.m21 * m.m22 - m.m00 * m.m13 * m.m21 * m.m22 - m.m02 * m.m10 * m.m21 * m.m23 - m.m03 * m.m12 * m.m20 * m.m21
    requires m.m22 * a.m23 == m.m00 * m.m13 * m.m21 * m.m22 + m.m01 * m.m10 * m.m22 * m.m23 + m.m03 * m.m11 * m.m20 * m.m22 - m.m00 * m.m11 * m.m22 * m.m23 - m.m01 * m.m13 * m.m20 * m.m22 - m.m03 * m.m10 * m.m21 * m.m22
    requires m.m23 * a.m33 == m.m00 * m.m11 * m.m22 * m.m23 + m.m01 * m.m12 * m.m20 * m.m23 + m.m02 * m.m10 * m.m21 * m.m23 - m.m00 * m.m12 * m.m21 * m.m23 - m.m01 * m.m10 * m.m22 * m.m23 - m.m02 * m.m11 * m.m20 * m.m23
    ensures RowTimesColumn(m.m20, m.m21, m.m22, m.m23, a.m03, a.m13, a.m23, a.m33) == 0.0
  {
  }

  lemma MatrixTimesAdjugateEntry30(m: Mat4)
    ensures Mul(m, Adjugate(m)).m30 == 0.0
  {
    assert m.m30 * Adjugate(m).m00 == m.m11 * m.m22 * m.m30 * m.m33 + m.m12 * m.m23 * m.m30 * m.m31 + m.m13 * m.m21 * m.m30 * m.m32 - m.m11 * m.m23 * m.m30 * m.m32 - m.m12 * m.m21 * m.m30 * m.m33 - m.m13 * m.m22 * m.m30 * m.m31 by {
      Cofactor00(m);
      DistributeLeft(m.m30, Adjugate(m).m00, m.m11 * m.m22 * m.m33, m.m12 * m.m23 * m.m31, m.m13 * m.m21 * m.m32, m.m11 * m.m23 * m.m32, m.m12 * m.m21 * m.m33, m.m13 * m.m22 * m.m31);
    }
    assert m.m31 * Adjugate(m).m10 == m.m10 * m.m23 * m.m31 * m.m32 + m.m12 * m.m20 * m.m31 * m.m33 + m.m13 * m.m22 * m.m30 * m.m31 - m.m10 * m.m22 * m.m31 * m.m33 - m.m12 * m.m23 * m.m30 * m.m31 - m.m13 * m.m20 * m.m31 * m.m32 by {
      Cofactor10(m);
      DistributeLeft(m.m31, Adjugate(m).m10, m.m10 * m.m23 * m.m32, m.m12 * m.m20 * m.m33, m.m13 * m.m22 * m.m30, m.m10 * m.m22 * m.m33, m.m12 * m.m23 * m.m30, m.m13 * m.m20 * m.m32);
    }
    assert m.m32 * Adjugate(m).m20 == m.m10 * m.m21 * m.m32 * m.m33 + m.m11 * m.m23 * m.m30 * m.m32 + m.m13 * m.m20 * m.m31 * m.m32 - m.m10 * m.m23 * m.m31 * m.m32 - m.m11 * m.m20 * m.m32 * m.m33 - m.m13 * m.m21 * m.m30 * m.m32 by {
      Cofactor20(m);
      DistributeLeft(m.m32, Adjugate(m).m20, m.m10 * m.m21 * m.m33, m.m11 * m.m23 * m.m30, m.m13 * m.m20 * m.m31, m.m10 * m.m23 * m.m31, m.m11 * m.m20 * m.m33, m.m13 * m.m21 * m.m30);
    }
    assert m.m33 * Adjugate(m).m30 == m.m10 * m.m22 * m.m31 * m.m33 + m.m11 * m.m20 * m.m32 * m.m33 + m.m12 * m.m21 * m.m30 * m.m33 - m.m10 * m.m21 * m.m32 * m.m33 - m.m11 * m.m22 * m.m30 * m.m33 - m.m12 * m.m20 * m.m31 * m.m33 by {
      Cofactor30(m);
      DistributeLeft(m.m33, Adjugate(m).m30, m.m10 * m.m22 * m.m31, m.m11 * m.m20 * m.m32, m.m12 * m.m21 * m.m30, m.m10 * m.m21 * m.m32, m.m11 * m.m22 * m.m30, m.m12 * m.m20 * m.m31);
    }
    MatrixTimesAdjugateSum30(m, Adjugate(m));
  }

  lemma MatrixTimesAdjugateSum30(m: Mat4, a: Mat4)
    requires m.m30 * a.m00 == m.m11 * m.m22 * m.m30 * m.m33 + m.m12 * m.m23 * m.m30 * m.m31 + m.m13 * m.m21 * m.m30 * m.m32 - m.m11 * m.m23 * m.m30 * m.m32 - m.m12 * m.m21 * m.m30 * m.m33 - m.m13 * m.m22 * m.m30 * m.m31
    requires m.m31 * a.m10 == m.m10 * m.m23 * m.m31 * m.m32 + m.m12 * m.m20 * m.m31 * m.m33 + m.m13 * m.m22 * m.m30 * m.m31 - m.m10 * m.m22 * m.m31 * m.m33 - m.m12 * m.m23 * m.m30 * m.m31 - m.m13 * m.m20 * m.m31 * m.m32
    requires m.m32 * a.m20 == m.m10 * m.m21 * m.m32 * m.m33 + m.m11 * m.m23 * m.m30 * m.m32 + m.m13 * m.m20 * m.m31 * m.m32 - m.m10 * m.m23 * m.m31 * m.m32 - m.m11 * m.m20 * m.m32 * m.m33 - m.m13 * m.m21 * m.m30 * m.m32
    requires m.m33 * a.m30 == m.m10 * m.m22 * m.m31 * m.m33 + m.m11 * m.m20 * m.m32 * m.m33 + m.m12 * m.m21 * m.m30 * m.m33 - m.m10 * m.m21 * m.m32 * m.m33 - m.m11 * m.m22 * m.m30 * m.m33 - m.m12 * m.m20 * m.m31 * m.m33
    ensures RowTimesColumn(m.m30, m.m31, m.m32, m.m33, a.m00, a.m10, a.m20, a.m30) == 0.0
  {
  }

  lemma MatrixTimesAdjugateEntry31(m: Mat4)
    ensures Mul(m, Adjugate(m)).m31 == 0.0
  {
    assert m.m30 * Adjugate(m).m01 == m.m01 * m.m23 * m.m30 * m.m32 + m.m02 * m.m21 * m.m30 * m.m33 + m.m03 * m.m22 * m.m30 * m.m31 - m.m01 * m.m22 * m.m30 * m.m33 - m.m02 * m.m23 * m.m30 * m.m31 - m.m03 * m.m21 * m.m30 * m.m32 by {
      Cofactor01(m);
      DistributeLeft(m.m30, Adjugate(m).m01, m.m01 * m.m23 * m.m32, m.m02 * m.m21 * m.m33, m.m03 * m.m22 * m.m31, m.m01 * m.m22 * m.m33, m.m02 * m.m23 * m.m31, m.m03 * m.m21 * m.m32);
    }
    assert m.m31 * Adjugate(m).m11 == m.m00 * m.m22 * m.m31 * m.m33 + m.m02 * m.m23 * m.m30 * m.m31 + m.m03 * m.m20 * m.m31 * m.m32 - m.m00 * m.m23 * m.m31 * m.m32 - m.m02 * m.m20 * m.m31 * m.m33 - m.m03 * m.m22 * m.m30 * m.m31 by {
      Cofactor11(m);
      DistributeLeft(m.m31, Adjugate(m).m11, m.m00 * m.m22 * m.m33, m.m02 * m.m23 * m.m30, m.m03 * m.m20 * m.m32, m.m00 * m.m23 * m.m32, m.m02 * m.m20 * m.m33, m.m03 * m.m22 * m.m30);
    }
    assert m.m32 * Adjugate(m).m21 == m.m00 * m.m23 * m.m31 * m.m32 + m.m01 * m.m20 * m.m32 * m.m33 + m.m03 * m.m21 * m.m30 * m.m32 - m.m00 * m.m21 * m.m32 * m.m33 - m.m01 * m.m23 * m.m30 * m.m32 - m.m03 * m.m20 * m.m31 * m.m32 by {
      Cofactor21(m);
      DistributeLeft(m.m32, Adjugate(m).m21, m.m00 * m.m23 * m.m31, m.m01 * m.m20 * m.m33, m.m03 * m.m21 * m.m30, m.m00 * m.m21 * m.m33, m.m01 * m.m23 * m.m30, m.m03 * m.m20 * m.m31);
    }
    assert m.m33 * Adjugate(m).m31 == m.m00 * m.m21 * m.m32 * m.m33 + m.m01 * m.m22 * m.m30 * m.m33 + m.m02 * m.m20 * m.m31 * m.m33 - m.m00 * m.m22 * m.m31 * m.m33 - m.m01 * m.m20 * m.m32 * m.m33 - m.m02 * m.m21 * m.m30 * m.m33 by {
      Cofactor31(m);
      DistributeLeft(m.m33, Adjugate(m).m31, m.m00 * m.m21 * m.m32, m.m01 * m.m22 * m.m30, m.m02 * m.m20 * m.m31, m.m00 * m.m22 * m.m31, m.m01 * m.m20 * m.m32, m.m02 * m.m21 * m.m30);
    }
    MatrixTimesAdjugateSum31(m, Adjugate(m));
  }

  lemma MatrixTimesAdjugateSum31(m: Mat4, a: Mat4)
    requires m.m30 * a.m01 == m.m01 * m.m23 * m.m30 * m.m32 + m.m02 * m.m21 * m.m30 * m.m33 + m.m03 * m.m22 * m.m30 * m.m31 - m.m01 * m.m22 * m.m30 * m.m33 - m.m02 * m.m23 * m.m30 * m.m31 - m.m03 * m.m21 * m.m30 * m.m32
    requires m.m31 * a.m11 == m.m00 * m.m22 * m.m31 * m.m33 + m.m02 * m.m23 * m.m30 * m.m31 + m.m03 * m.m20 * m.m31 * m.m32 - m.m00 * m.m23 * m.m31 * m.m32 - m.m02 * m.m20 * m.m31 * m.m33 - m.m03 * m.m22 * m.m30 * m.m31
    requires m.m32 * a.m21 == m.m00 * m.m23 * m.m31 * m.m32 + m.m01 * m.m20 * m.m32 * m.m33 + m.m03 * m.m21 * m.m30 * m.m32 - m.m00 * m.m21 * m.m32 * m.m33 - m.m01 * m.m23 * m.m30 * m.m32 - m.m03 * m.m20 * m.m31 * m.m32
    requires m.m33 * a.m31 == m.m00 * m.m21 * m.m32 * m.m33 + m.m01 * m.m22 * m.m30 * m.m33 + m.m02 * m.m20 * m.m31 * m.m33 - m.m00 * m.m22 * m.m31 * m.m33 - m.m01 * m.m20 * m.m32 * m.m33 - m.m02 * m.m21 * m.m30 * m.m33
    ensures RowTimesColumn(m.m30, m.m31, m.m32, m.m33, a.m01, a.m11, a.m21, a.m31) == 0.0
  {
  }

  lemma MatrixTimesAdjugateEntry32(m: Mat4)
    ensures Mul(m, Adjugate(m)).m32 == 0.0
  {
    assert m.m30 * Adjugate(m).m02 == m.m01 * m.m12 * m.m30 * m.m33 + m.m02 * m.m13 * m.m30 * m.m31 + m.m03 * m.m11 * m.m30 * m.m32 - m.m01 * m.m13 * m.m30 * m.m32 - m.m02 * m.m11 * m.m30 * m.m33 - m.m03 * m.m12 * m.m30 * m.m31 by {
      Cofactor02(m);
      DistributeLeft(m.m30, Adjugate(m).m02, m.m01 * m.m12 * m.m33, m.m02 * m.m13 * m.m31, m.m03 * m.m11 * m.m32, m.m01 * m.m13 * m.m32, m.m02 * m.m11 * m.m33, m.m03 * m.m12 * m.m31);
    }
    assert m.m31 * Adjugate(m).m12 == m.m00 * m.m13 * m.m31 * m.m32 + m.m02 * m.m10 * m.m31 * m.m33 + m.m03 * m.m12 * m.m30 * m.m31 - m.m00 * m.m12 * m.m31 * m.m33 - m.m02 * m.m13 * m.m30 * m.m31 - m.m03 * m.m10 * m.m31 * m.m32 by {
      Cofactor12(m);
      DistributeLeft(m.m31, Adjugate(m).m12, m.m00 * m.m13 * m.m32, m.m02 * m.m10 * m.m33, m.m03 * m.m12 * m.m30, m.m00 * m.m12 * m.m33, m.m02 * m.m13 * m.m30, m.m03 * m.m10 * m.m32);
    }
    assert m.m32 * Adjugate(m).m22 == m.m00 * m.m11 * m.m32 * m.m33 + m.m01 * m.m13 * m.m30 * m.m32 + m.m03 * m.m10 * m.m31 * m.m32 - m.m00 * m.m13 * m.m31 * m.m32 - m.m01 * m.m10 * m.m32 * m.m33 - m.m03 * m.m11 * m.m30 * m.m32 by {
      Cofactor22(m);
      DistributeLeft(m.m32, Adjugate(m).m22, m.m00 * m.m11 * m.m33, m.m01 * m.m13 * m.m30, m.m03 * m.m10 * m.m31, m.m00 * m.m13 * m.m31, m.m01 * m.m10 * m.m33, m.m03 * m.m11 * m.m30);
    }
    assert m.m33 * Adjugate(m).m32 == m.m00 * m.m12 * m.m31 * m.m33 + m.m01 * m.m10 * m.m32 * m.m33 + m.m02 * m.m11 * m.m30 * m.m33 - m.m00 * m.m11 * m.m32 * m.m33 - m.m01 * m.m12 * m.m30 * m.m33 - m.m02 * m.m10 * m.m31 * m.m33 by {
      Cofactor32(m);
      DistributeLeft(m.m33, Adjugate(m).m32, m.m00 * m.m12 * m.m31, m.m01 * m.m10 * m.m32, m.m02 * m.m11 * m.m30, m.m00 * m.m11 * m.m32, m.m01 * m.m12 * m.m30, m.m02 * m.m10 * m.m31);
    }
    MatrixTimesAdjugateSum32(m, Adjugate(m));
  }

  lemma MatrixTimesAdjugateSum32(m: Mat4, a: Mat4)
    requires m.m30 * a.m02 == m.m01 * m.m12 * m.m30 * m.m33 + m.m02 * m.m13 * m.m30 * m.m31 + m.m03 * m.m11 * m.m30 * m.m32 - m.m01 * m.m13 * m.m30 * m.m32 - m.m02 * m.m11 * m.m30 * m.m33 - m.m03 * m.m12 * m.m30 * m.m31
    requires m.m31 * a.m12 == m.m00 * m.m13 * m.m31 * m.m32 + m.m02 * m.m10 * m.m31 * m.m33 + m.m03 * m.m12 * m.m30 * m.m31 - m.m00 * m.m12 * m.m31 * m.m33 - m.m02 * m.m13 * m.m30 * m.m31 - m.m03 * m.m10 * m.m31 * m.m32
    requires m.m32 * a.m22 == m.m00 * m.m11 * m.m32 * m.m33 + m.m01 * m.m13 * m.m30 * m.m32 + m.m03 * m.m10 * m.m31 * m.m32 - m.m00 * m.m13 * m.m31 * m.m32 - m.m01 * m.m10 * m.m32 * m.m33 - m.m03 * m.m11 * m.m30 * m.m32
    requires m.m33 * a.m32 == m.m00 * m.m12 * m.m31 * m.m33 + m.m01 * m.m10 * m.m32 * m.m33 + m.m02 * m.m11 * m.m30 * m.m33 - m.m00 * m.m11 * m.m32 * m.m33 - m.m01 * m.m12 * m.m30 * m.m33 - m.m02 * m.m10 * m.m31 * m.m33
    ensures RowTimesColumn(m.m30, m.m31, m.m32, m.m33, a.m02, a.m12, a.m22, a.m32) == 0.0
  {
  }

  lemma MatrixTimesAdjugateEntry33(m: Mat4)
    ensures Mul(m, Adjugate(m)).m33 == Determinant(m)
  {
    DeterminantExpanded(m);
    assert m.m30 * Adjugate(m).m03 == m.m01 * m.m13 * m.m22 * m.m30 + m.m02 * m.m11 * m.m23 * m.m30 + m.m03 * m.m12 * m.m21 * m.m30 - m.m01 * m.m12 * m.m23 * m.m30 - m.m02 * m.m13 * m.m21 * m.m30 - m.m03 * m.m11 * m.m22 * m.m30 by {
      Cofactor03(m);
      DistributeLeft(m.m30, Adjugate(m).m03, m.m01 * m.m13 * m.m22, m.m02 * m.m11 * m.m23, m.m03 * m.m12 * m.m21, m.m01 * m.m12 * m.m23, m.m02 * m.m13 * m.m21, m.m03 * m.m11 * m.m22);
    }
    assert m.m31 * Adjugate(m).m13 == m.m00 * m.m12 * m.m23 * m.m31 + m.m02 * m.m13 * m.m20 * m.m31 + m.m03 * m.m10 * m.m22 * m.m31 - m.m00 * m.m13 * m.m22 * m.m31 - m.m02 * m.m10 * m.m23 * m.m31 - m.m03 * m.m12 * m.m20 * m.m31 by {
      Cofactor13(m);
      DistributeLeft(m.m31, Adjugate(m).m13, m.m00 * m.m12 * m.m23, m.m02 * m.m13 * m.m20, m.m03 * m.m10 * m.m22, m.m00 * m.m13 * m.m22, m.m02 * m.m10 * m.m23, m.m03 * m.m12 * m.m20);
    }
    assert m.m32 * Adjugate(m).m23 == m.m00 * m.m13 * m.m21 * m.m32 + m.m01 * m.m10 * m.m23 * m.m32 + m.m03 * m.m11 * m.m20 * m.m32 - m.m00 * m.m11 * m.m23 * m.m32 - m.m01 * m.m13 * m.m20 * m.m32 - m.m03 * m.m10 * m.m21 * m.m32 by {
      Cofactor23(m);
      DistributeLeft(m.m32, Adjugate(m).m23, m.m00 * m.m13 * m.m21, m.m01 * m.m10 * m.m23, m.m03 * m.m11 * m.m20, m.m00 * m.m11 * m.m23, m.m01 * m.m13 * m.m20, m.m03 * m.m10 * m.m21);
    }
    assert m.m33 * Adjugate(m).m33 == m.m00 * m.m11 * m.m22 * m.m33 + m.m01 * m.m12 * m.m20 * m.m33 + m.m02 * m.m10 * m.m21 * m.m33 - m.m00 * m.m12 * m.m21 * m.m33 - m.m01 * m.m10 * m.m22 * m.m33 - m.m02 * m.m11 * m.m20 * m.m33 by {
      Cofactor33(m);
      DistributeLeft(m.m33, Adjugate(m).m33, m.m00 * m.m11 * m.m22, m.m01 * m.m12 * m.m20, m.m02 * m.m10 * m.m21, m.m00 * m.m12 * m.m21, m.m01 * m.m10 * m.m22, m.m02 * m.m11 * m.m20);
    }
    MatrixTimesAdjugateSum33(m, Adjugate(m));
  }

  lemma MatrixTimesAdjugateSum33(m: Mat4, a: Mat4)
    requires m.m30 * a.m03 == m.m01 * m.m13 * m.m22 * m.m30 + m.m02 * m.m11 * m.m23 * m.m30 + m.m03 * m.m12 * m.m21 * m.m30 - m.m01 * m.m12 * m.m23 * m.m30 - m.m02 * m.m13 * m.m21 * m.m30 - m.m03 * m.m11 * m.m22 * m.m30
    requires m.m31 * a.m13 == m.m00 * m.m12 * m.m23 * m.m31 + m.m02 * m.m13 * m.m20 * m.m31 + m.m03 * m.m10 * m.m22 * m.m31 - m.m00 * m.m13 * m.m22 * m.m31 - m.m02 * m.m10 * m.m23 * m.m31 - m.m03 * m.m12 * m.m20 * m.m31
    requires m.m32 * a.m23 == m.m00 * m.m13 * m.m21 * m.m32 + m.m01 * m.m10 * m.m23 * m.m32 + m.m03 * m.m11 * m.m20 * m.m32 - m.m00 * m.m11 * m.m23 * m.m32 - m.m01 * m.m13 * m.m20 * m.m32 - m.m03 * m.m10 * m.m21 * m.m32
    requires m.m33 * a.m33 == m.m00 * m.m11 * m.m22 * m.m33 + m.m01 * m.m12 * m.m20 * m.m33 + m.m02 * m.m10 * m.m21 * m.m33 - m.m00 * m.m12 * m.m21 * m.m33 - m.m01 * m.m10 * m.m22 * m.m33 - m.m02 * m.m11 * m.m20 * m.m33
    ensures RowTimesColumn(m.m30, m.m31, m.m32, m.m33, a.m03, a.m13, a.m23, a.m33) == m.m00 * m.m11 * m.m22 * m.m33
      + m.m00 * m.m12 * m.m23 * m.m31
      + m.m00 * m.m13 * m.m21 * m.m32
      + m.m01 * m.m10 * m.m23 * m.m32
      + m.m01 * m.m12 * m.m20 * m.m33
      + m.m01 * m.m13 * m.m22 * m.m30
      + m.m02 * m.m10 * m.m21 * m.m33
      + m.m02 * m.m11 * m.m23 * m.m30
      + m.m02 * m.m13 * m.m20 * m.m31
      + m.m03 * m.m10 * m.m22 * m.m31
      + m.m03 * m.m11 * m.m20 * m.m32
      + m.m03 * m.m12 * m.m21 * m.m30
      - m.m00 * m.m11 * m.m23 * m.m32
      - m.m00 * m.m12 * m.m21 * m.m33
      - m.m00 * m.m13 * m.m22 * m.m31
      - m.m01 * m.m10 * m.m22 * m.m33
      - m.m01 * m.m12 * m.m23 * m.m30
      - m.m01 * m.m13 * m.m20 * m.m32
      - m.m02 * m.m10 * m.m23 * m.m31
      - m.m02 * m.m11 * m.m20 * m.m33
      - m.m02 * m.m13 * m.m21 * m.m30
      - m.m03 * m.m10 * m.m21 * m.m32
      - m.m03 * m.m11 * m.m22 * m.m30
      - m.m03 * m.m12 * m.m20 * m.m31
  {
  }

  /** the determinant multiplied out into its 24 signed products of four entries */
  lemma DeterminantExpanded(m: Mat4)
    ensures Determinant(m) ==
      m.m00 * m.m11 * m.m22 * m.m33
      + m.m00 * m.m12 * m.m23 * m.m31
      + m.m00 * m.m13 * m.m21 * m.m32
      + m.m01 * m.m10 * m.m23 * m.m32
      + m.m01 * m.m12 * m.m20 * m.m33
      + m.m01 * m.m13 * m.m22 * m.m30
      + m.m02 * m.m10 * m.m21 * m.m33
      + m.m02 * m.m11 * m.m23 * m.m30
      + m.m02 * m.m13 * m.m20 * m.m31
      + m.m03 * m.m10 * m.m22 * m.m31
      + m.m03 * m.m11 * m.m20 * m.m32
      + m.m03 * m.m12 * m.m21 * m.m30
      - m.m00 * m.m11 * m.m23 * m.m32
      - m.m00 * m.m12 * m.m21 * m.m33
      - m.m00 * m.m13 * m.m22 * m.m31
      - m.m01 * m.m10 * m.m22 * m.m33
      - m.m01 * m.m12 * m.m23 * m.m30
      - m.m01 * m.m13 * m.m20 * m.m32
      - m.m02 * m.m10 * m.m23 * m.m31
      - m.m02 * m.m11 * m.m20 * m.m33
      - m.m02 * m.m13 * m.m21 * m.m30
      - m.m03 * m.m10 * m.m21 * m.m32
      - m.m03 * m.m11 * m.m22 * m.m30
      - m.m03 * m.m12 * m.m20 * m.m31
  {
    assert m.m00 * Adjugate(m).m00 == m.m00 * m.m11 * m.m22 * m.m33 + m.m00 * m.m12 * m.m23 * m.m31 + m.m00 * m.m13 * m.m21 * m.m32 - m.m00 * m.m11 * m.m23 * m.m32 - m.m00 * m.m12 * m.m21 * m.m33 - m.m00 * m.m13 * m.m22 * m.m31 by {
      Cofactor00(m);
      DistributeLeft(m.m00, Adjugate(m).m00, m.m11 * m.m22 * m.m33, m.m12 * m.m23 * m.m31, m.m13 * m.m21 * m.m32, m.m11 * m.m23 * m.m32, m.m12 * m.m21 * m.m33, m.m13 * m.m22 * m.m31);
    }
    assert m.m01 * Adjugate(m).m10 == m.m01 * m.m10 * m.m23 * m.m32 + m.m01 * m.m12 * m.m20 * m.m33 + m.m01 * m.m13 * m.m22 * m.m30 - m.m01 * m.m10 * m.m22 * m.m33 - m.m01 * m.m12 * m.m23 * m.m30 - m.m01 * m.m13 * m.m20 * m.m32 by {
      Cofactor10(m);
      DistributeLeft(m.m01, Adjugate(m).m10, m.m10 * m.m23 * m.m32, m.m12 * m.m20 * m.m33, m.m13 * m.m22 * m.m30, m.m10 * m.m22 * m.m33, m.m12 * m.m23 * m.m30, m.m13 * m.m20 * m.m32);
    }
    assert m.m02 * Adjugate(m).m20 == m.m02 * m.m10 * m.m21 * m.m33 + m.m02 * m.m11 * m.m23 * m.m30 + m.m02 * m.m13 * m.m20 * m.m31 - m.m02 * m.m10 * m.m23 * m.m31 - m.m02 * m.m11 * m.m20 * m.m33 - m.m02 * m.m13 * m.m21 * m.m30 by {
      Cofactor20(m);
      DistributeLeft(m.m02, Adjugate(m).m20, m.m10 * m.m21 * m.m33, m.m11 * m.m23 * m.m30, m.m13 * m.m20 * m.m31, m.m10 * m.m23 * m.m31, m.m11 * m.m20 * m.m33, m.m13 * m.m21 * m.m30);
    }
    assert m.m03 * Adjugate(m).m30 == m.m03 * m.m10 * m.m22 * m.m31 + m.m03 * m.m11 * m.m20 * m.m32 + m.m03 * m.m12 * m.m21 * m.m30 - m.m03 * m.m10 * m.m21 * m.m32 - m.m03 * m.m11 * m.m22 * m.m30 - m.m03 * m.m12 * m.m20 * m.m31 by {
      Cofactor30(m);
      DistributeLeft(m.m03, Adjugate(m).m30, m.m10 * m.m22 * m.m31, m.m11 * m.m20 * m.m32, m.m12 * m.m21 * m.m30, m.m10 * m.m21 * m.m32, m.m11 * m.m22 * m.m30, m.m12 * m.m20 * m.m31);
    }
    MatrixTimesAdjugateSum00(m, Adjugate(m));
    DeterminantIsFirstRowTimesAdjugate(m);
  }

  /** adjugate(m) * m == det(m) * I */
  lemma AdjugateTimesMatrix(m: Mat4)
    ensures Mul(Adjugate(m), m) == ScaleBy(Identity, Determinant(m))
  {
    AdjugateTimesMatrixEntry00(m); AdjugateTimesMatrixEntry01(m); AdjugateTimesMatrixEntry02(m); AdjugateTimesMatrixEntry03(m);
    AdjugateTimesMatrixEntry10(m); AdjugateTimesMatrixEntry11(m); AdjugateTimesMatrixEntry12(m); AdjugateTimesMatrixEntry13(m);
    AdjugateTimesMatrixEntry20(m); AdjugateTimesMatrixEntry21(m); AdjugateTimesMatrixEntry22(m); AdjugateTimesMatrixEntry23(m);
    AdjugateTimesMatrixEntry30(m); AdjugateTimesMatrixEntry31(m); AdjugateTimesMatrixEntry32(m); AdjugateTimesMatrixEntry33(m);
  }

  /** m * adjugate(m) == det(m) * I */
  lemma MatrixTimesAdjugate(m: Mat4)
    ensures Mul(m, Adjugate(m)) == ScaleBy(Identity, Determinant(m))
  {
    MatrixTimesAdjugateEntry00(m); MatrixTimesAdjugateEntry01(m); MatrixTimesAdjugateEntry02(m); MatrixTimesAdjugateEntry03(m);
    MatrixTimesAdjugateEntry10(m); MatrixTimesAdjugateEntry11(m); MatrixTimesAdjugateEntry12(m); MatrixTimesAdjugateEntry13(m);
    MatrixTimesAdjugateEntry20(m); MatrixTimesAdjugateEntry21(m); MatrixTimesAdjugateEntry22(m); MatrixTimesAdjugateEntry23(m);
    MatrixTimesAdjugateEntry30(m); MatrixTimesAdjugateEntry31(m); MatrixTimesAdjugateEntry32(m); MatrixTimesAdjugateEntry33(m);
  }


  // ---------------------------------------------------------------------------
  // Inverse
  // ---------------------------------------------------------------------------

  /** `inverse()`: the adjugate times 1 / determinant */
  function Inverse(m: Mat4): Mat4
    requires Determinant(m) != 0.0
  {
    ScaleBy(Adjugate(m), 1.0 / Determinant(m))
  }

  /** two matrices whose 16 fields agree are equal */
  lemma EqualEntries(x: Mat4, y: Mat4)
    requires x.m00 == y.m00 && x.m01 == y.m01 && x.m02 == y.m02 && x.m03 == y.m03 && x.m10 == y.m10 && x.m11 == y.m11 && x.m12 == y.m12 && x.m13 == y.m13 && x.m20 == y.m20 && x.m21 == y.m21 && x.m22 == y.m22 && x.m23 == y.m23 && x.m30 == y.m30 && x.m31 == y.m31 && x.m32 == y.m32 && x.m33 == y.m33
    ensures x == y
  {
  }

  /** each entry of a scaled matrix is the scaled entry */
  lemma ScaleByEntries(x: Mat4, s: real)
    ensures ScaleBy(x, s).m00 == Scaled(x.m00, s)
    ensures ScaleBy(x, s).m01 == Scaled(x.m01, s)
    ensures ScaleBy(x, s).m02 == Scaled(x.m02, s)
    ensures ScaleBy(x, s).m03 == Scaled(x.m03, s)
    ensures ScaleBy(x, s).m10 == Scaled(x.m10, s)
    ensures ScaleBy(x, s).m11 == Scaled(x.m11, s)
    ensures ScaleBy(x, s).m12 == Scaled(x.m12, s)
    ensures ScaleBy(x, s).m13 == Scaled(x.m13, s)
    ensures ScaleBy(x, s).m20 == Scaled(x.m20, s)
    ensures ScaleBy(x, s).m21 == Scaled(x.m21, s)
    ensures ScaleBy(x, s).m22 == Scaled(x.m22, s)
    ensures ScaleBy(x, s).m23 == Scaled(x.m23, s)
    ensures ScaleBy(x, s).m30 == Scaled(x.m30, s)
    ensures ScaleBy(x, s).m31 == Scaled(x.m31, s)
    ensures ScaleBy(x, s).m32 == Scaled(x.m32, s)
    ensures ScaleBy(x, s).m33 == Scaled(x.m33, s)
  {
  }

  /** a scalar factor on the left operand moves out of the product */
  lemma MulScaledLeft(a: Mat4, b: Mat4, s: real)
    ensures Mul(ScaleBy(a, s), b) == ScaleBy(Mul(a, b), s)
  {
    MulScaledLeftEntry00(a, b, s);
    MulScaledLeftEntry01(a, b, s);
    MulScaledLeftEntry02(a, b, s);
    MulScaledLeftEntry03(a, b, s);
    MulScaledLeftEntry10(a, b, s);
    MulScaledLeftEntry11(a, b, s);
    MulScaledLeftEntry12(a, b, s);
    MulScaledLeftEntry13(a, b, s);
    MulScaledLeftEntry20(a, b, s);
    MulScaledLeftEntry21(a, b, s);
    MulScaledLeftEntry22(a, b, s);
    MulScaledLeftEntry23(a, b, s);
    MulScaledLeftEntry30(a, b, s);
    MulScaledLeftEntry31(a, b, s);
    MulScaledLeftEntry32(a, b, s);
    MulScaledLeftEntry33(a, b, s);
    ScaleByEntries(Mul(a, b), s);
    EqualEntries(Mul(ScaleBy(a, s), b), ScaleBy(Mul(a, b), s));
  }

  /** a row scaled by s, times a column, is the row times the column, scaled by s */
  lemma ScaledRow(r0: real, r1: real, r2: real, r3: real, c0: real, c1: real, c2: real, c3: real, s: real)
    ensures RowTimesColumn(Scaled(r0, s), Scaled(r1, s), Scaled(r2, s), Scaled(r3, s), c0, c1, c2, c3)
      == Scaled(RowTimesColumn(r0, r1, r2, r3, c0, c1, c2, c3), s)
  {
  }

  /** a row times a column scaled by s is the row times the column, scaled by s */
  lemma ScaledColumn(r0: real, r1: real, r2: real, r3: real, c0: real, c1: real, c2: real, c3: real, s: real)
    ensures RowTimesColumn(r0, r1, r2, r3, Scaled(c0, s), Scaled(c1, s), Scaled(c2, s), Scaled(c3, s))
      == Scaled(RowTimesColumn(r0, r1, r2, r3, c0, c1, c2, c3), s)
  {
  }

  lemma MulScaledLeftEntry00(a: Mat4, b: Mat4, s: real)
    ensures Mul(ScaleBy(a, s), b).m00 == Scaled(Mul(a, b).m00, s)
  {
    ScaleByEntries(a, s);
    ScaledRow(a.m00, a.m01, a.m02, a.m03, b.m00, b.m10, b.m20, b.m30, s);
  }

  lemma MulScaledLeftEntry01(a: Mat4, b: Mat4, s: real)
    ensures Mul(ScaleBy(a, s), b).m01 == Scaled(Mul(a, b).m01, s)
  {
    ScaleByEntries(a, s);
    ScaledRow(a.m00, a.m01, a.m02, a.m03, b.m01, b.m11, b.m21, b.m31, s);
  }

  lemma MulScaledLeftEntry02(a: Mat4, b: Mat4, s: real)
    ensures Mul(ScaleBy(a, s), b).m02 == Scaled(Mul(a, b).m02, s)
  {
    ScaleByEntries(a, s);
    ScaledRow(a.m00, a.m01, a.m02, a.m03, b.m02, b.m12, b.m22, b.m32, s);
  }

  lemma MulScaledLeftEntry03(a: Mat4, b: Mat4, s: real)
    ensures Mul(ScaleBy(a, s), b).m03 == Scaled(Mul(a, b).m03, s)
  {
    ScaleByEntries(a, s);
    ScaledRow(a.m00, a.m01, a.m02, a.m03, b.m03, b.m13, b.m23, b.m33, s);
  }

  lemma MulScaledLeftEntry10(a: Mat4, b: Mat4, s: real)
    ensures Mul(ScaleBy(a, s), b).m10 == Scaled(Mul(a, b).m10, s)
  {
    ScaleByEntries(a, s);
    ScaledRow(a.m10, a.m11, a.m12, a.m13, b.m00, b.m10, b.m20, b.m30, s);
  }

  lemma MulScaledLeftEntry11(a: Mat4, b: Mat4, s: real)
    ensures Mul(ScaleBy(a, s), b).m11 == Scaled(Mul(a, b).m11, s)
  {
    ScaleByEntries(a, s);
    ScaledRow(a.m10, a.m11, a.m12, a.m13, b.m01, b.m11, b.m21, b.m31, s);
  }

  lemma MulScaledLeftEntry12(a: Mat4, b: Mat4, s: real)
    ensures Mul(ScaleBy(a, s), b).m12 == Scaled(Mul(a, b).m12, s)
  {
    ScaleByEntries(a, s);
    ScaledRow(a.m10, a.m11, a.m12, a.m13, b.m02, b.m12, b.m22, b.m32, s);
  }

  lemma MulScaledLeftEntry13(a: Mat4, b: Mat4, s: real)
    ensures Mul(ScaleBy(a, s), b).m13 == Scaled(Mul(a, b).m13, s)
  {
    ScaleByEntries(a, s);
    ScaledRow(a.m10, a.m11, a.m12, a.m13, b.m03, b.m13, b.m23, b.m33, s);
  }

  lemma MulScaledLeftEntry20(a: Mat4, b: Mat4, s: real)
    ensures Mul(ScaleBy(a, s), b).m20 == Scaled(Mul(a, b).m20, s)
  {
    ScaleByEntries(a, s);
    ScaledRow(a.m20, a.m21, a.m22, a.m23, b.m00, b.m10, b.m20, b.m30, s);
  }

  lemma MulScaledLeftEntry21(a: Mat4, b: Mat4, s: real)
    ensures Mul(ScaleBy(a, s), b).m21 == Scaled(Mul(a, b).m21, s)
  {
    ScaleByEntries(a, s);
    ScaledRow(a.m20, a.m21, a.m22, a.m23, b.m01, b.m11, b.m21, b.m31, s);
  }

  lemma MulScaledLeftEntry22(a: Mat4, b: Mat4, s: real)
    ensures Mul(ScaleBy(a, s), b).m22 == Scaled(Mul(a, b).m22, s)
  {
    ScaleByEntries(a, s);
    ScaledRow(a.m20, a.m21, a.m22, a.m23, b.m02, b.m12, b.m22, b.m32, s);
  }

  lemma MulScaledLeftEntry23(a: Mat4, b: Mat4, s: real)
    ensures Mul(ScaleBy(a, s), b).m23 == Scaled(Mul(a, b).m23, s)
  {
    ScaleByEntries(a, s);
    ScaledRow(a.m20, a.m21, a.m22, a.m23, b.m03, b.m13, b.m23, b.m33, s);
  }

  lemma MulScaledLeftEntry30(a: Mat4, b: Mat4, s: real)
    ensures Mul(ScaleBy(a, s), b).m30 == Scaled(Mul(a, b).m30, s)
  {
    ScaleByEntries(a, s);
    ScaledRow(a.m30, a.m31, a.m32, a.m33, b.m00, b.m10, b.m20, b.m30, s);
  }

  lemma MulScaledLeftEntry31(a: Mat4, b: Mat4, s: real)
    ensures Mul(ScaleBy(a, s), b).m31 == Scaled(Mul(a, b).m31, s)
  {
    ScaleByEntries(a, s);
    ScaledRow(a.m30, a.m31, a.m32, a.m33, b.m01, b.m11, b.m21, b.m31, s);
  }

  lemma MulScaledLeftEntry32(a: Mat4, b: Mat4, s: real)
    ensures Mul(ScaleBy(a, s), b).m32 == Scaled(Mul(a, b).m32, s)
  {
    ScaleByEntries(a, s);
    ScaledRow(a.m30, a.m31, a.m32, a.m33, b.m02, b.m12, b.m22, b.m32, s);
  }

  lemma MulScaledLeftEntry33(a: Mat4, b: Mat4, s: real)
    ensures Mul(ScaleBy(a, s), b).m33 == Scaled(Mul(a, b).m33, s)
  {
    ScaleByEntries(a, s);
    ScaledRow(a.m30, a.m31, a.m32, a.m33, b.m03, b.m13, b.m23, b.m33, s);
  }

  /** a scalar factor on the right operand moves out of the product */
  lemma MulScaledRight(a: Mat4, b: Mat4, s: real)
    ensures Mul(a, ScaleBy(b, s)) == ScaleBy(Mul(a, b), s)
  {
    MulScaledRightEntry00(a, b, s);
    MulScaledRightEntry01(a, b, s);
    MulScaledRightEntry02(a, b, s);
    MulScaledRightEntry03(a, b, s);
    MulScaledRightEntry10(a, b, s);
    MulScaledRightEntry11(a, b, s);
    MulScaledRightEntry12(a, b, s);
    MulScaledRightEntry13(a, b, s);
    MulScaledRightEntry20(a, b, s);
    MulScaledRightEntry21(a, b, s);
    MulScaledRightEntry22(a, b, s);
    MulScaledRightEntry23(a, b, s);
    MulScaledRightEntry30(a, b, s);
    MulScaledRightEntry31(a, b, s);
    MulScaledRightEntry32(a, b, s);
    MulScaledRightEntry33(a, b, s);
    ScaleByEntries(Mul(a, b), s);
    EqualEntries(Mul(a, ScaleBy(b, s)), ScaleBy(Mul(a, b), s));
  }

  lemma MulScaledRightEntry00(a: Mat4, b: Mat4, s: real)
    ensures Mul(a, ScaleBy(b, s)).m00 == Scaled(Mul(a, b).m00, s)
  {
    ScaleByEntries(b, s);
    ScaledColumn(a.m00, a.m01, a.m02, a.m03, b.m00, b.m10, b.m20, b.m30, s);
  }

  lemma MulScaledRightEntry01(a: Mat4, b: Mat4, s: real)
    ensures Mul(a, ScaleBy(b, s)).m01 == Scaled(Mul(a, b).m01, s)
  {
    ScaleByEntries(b, s);
    ScaledColumn(a.m00, a.m01, a.m02, a.m03, b.m01, b.m11, b.m21, b.m31, s);
  }

  lemma MulScaledRightEntry02(a: Mat4, b: Mat4, s: real)
    ensures Mul(a, ScaleBy(b, s)).m02 == Scaled(Mul(a, b).m02, s)
  {
    ScaleByEntries(b, s);
    ScaledColumn(a.m00, a.m01, a.m02, a.m03, b.m02, b.m12, b.m22, b.m32, s);
  }

  lemma MulScaledRightEntry03(a: Mat4, b: Mat4, s: real)
    ensures Mul(a, ScaleBy(b, s)).m03 == Scaled(Mul(a, b).m03, s)
  {
    ScaleByEntries(b, s);
    ScaledColumn(a.m00, a.m01, a.m02, a.m03, b.m03, b.m13, b.m23, b.m33, s);
  }

  lemma MulScaledRightEntry10(a: Mat4, b: Mat4, s: real)
    ensures Mul(a, ScaleBy(b, s)).m10 == Scaled(Mul(a, b).m10, s)
  {
    ScaleByEntries(b, s);
    ScaledColumn(a.m10, a.m11, a.m12, a.m13, b.m00, b.m10, b.m20, b.m30, s);
  }

  lemma MulScaledRightEntry11(a: Mat4, b: Mat4, s: real)
    ensures Mul(a, ScaleBy(b, s)).m11 == Scaled(Mul(a, b).m11, s)
  {
    ScaleByEntries(b, s);
    ScaledColumn(a.m10, a.m11, a.m12, a.m13, b.m01, b.m11, b.m21, b.m31, s);
  }

  lemma MulScaledRightEntry12(a: Mat4, b: Mat4, s: real)
    ensures Mul(a, ScaleBy(b, s)).m12 == Scaled(Mul(a, b).m12, s)
  {
    ScaleByEntries(b, s);
    ScaledColumn(a.m10, a.m11, a.m12, a.m13, b.m02, b.m12, b.m22, b.m32, s);
  }

  lemma MulScaledRightEntry13(a: Mat4, b: Mat4, s: real)
    ensures Mul(a, ScaleBy(b, s)).m13 == Scaled(Mul(a, b).m13, s)
  {
    ScaleByEntries(b, s);
    ScaledColumn(a.m10, a.m11, a.m12, a.m13, b.m03, b.m13, b.m23, b.m33, s);
  }

  lemma MulScaledRightEntry20(a: Mat4, b: Mat4, s: real)
    ensures Mul(a, ScaleBy(b, s)).m20 == Scaled(Mul(a, b).m20, s)
  {
    ScaleByEntries(b, s);
    ScaledColumn(a.m20, a.m21, a.m22, a.m23, b.m00, b.m10, b.m20, b.m30, s);
  }

  lemma MulScaledRightEntry21(a: Mat4, b: Mat4, s: real)
    ensures Mul(a, ScaleBy(b, s)).m21 == Scaled(Mul(a, b).m21, s)
  {
    ScaleByEntries(b, s);
    ScaledColumn(a.m20, a.m21, a.m22, a.m23, b.m01, b.m11, b.m21, b.m31, s);
  }

  lemma MulScaledRightEntry22(a: Mat4, b: Mat4, s: real)
    ensures Mul(a, ScaleBy(b, s)).m22 == Scaled(Mul(a, b).m22, s)
  {
    ScaleByEntries(b, s);
    ScaledColumn(a.m20, a.m21, a.m22, a.m23, b.m02, b.m12, b.m22, b.m32, s);
  }

  lemma MulScaledRightEntry23(a: Mat4, b: Mat4, s: real)
    ensures Mul(a, ScaleBy(b, s)).m23 == Scaled(Mul(a, b).m23, s)
  {
    ScaleByEntries(b, s);
    ScaledColumn(a.m20, a.m21, a.m22, a.m23, b.m03, b.m13, b.m23, b.m33, s);
  }

  lemma MulScaledRightEntry30(a: Mat4, b: Mat4, s: real)
    ensures Mul(a, ScaleBy(b, s)).m30 == Scaled(Mul(a, b).m30, s)
  {
    ScaleByEntries(b, s);
    ScaledColumn(a.m30, a.m31, a.m32, a.m33, b.m00, b.m10, b.m20, b.m30, s);
  }

  lemma MulScaledRightEntry31(a: Mat4, b: Mat4, s: real)
    ensures Mul(a, ScaleBy(b, s)).m31 == Scaled(Mul(a, b).m31, s)
  {
    ScaleByEntries(b, s);
    ScaledColumn(a.m30, a.m31, a.m32, a.m33, b.m01, b.m11, b.m21, b.m31, s);
  }

  lemma MulScaledRightEntry32(a: Mat4, b: Mat4, s: real)
    ensures Mul(a, ScaleBy(b, s)).m32 == Scaled(Mul(a, b).m32, s)
  {
    ScaleByEntries(b, s);
    ScaledColumn(a.m30, a.m31, a.m32, a.m33, b.m02, b.m12, b.m22, b.m32, s);
  }

  lemma MulScaledRightEntry33(a: Mat4, b: Mat4, s: real)
    ensures Mul(a, ScaleBy(b, s)).m33 == Scaled(Mul(a, b).m33, s)
  {
    ScaleByEntries(b, s);
    ScaledColumn(a.m30, a.m31, a.m32, a.m33, b.m03, b.m13, b.m23, b.m33, s);
  }

  /** d * I scaled by 1 / d is I again */
  lemma ScaledIdentityCancels(d: real)
    requires d != 0.0
    ensures ScaleBy(ScaleBy(Identity, d), 1.0 / d) == Identity
  {
    assert d * (1.0 / d) == 1.0;
  }

  /** for a non-zero determinant, `inverse()` is a two-sided inverse */
  lemma InverseIsTwoSided(m: Mat4)
    requires Determinant(m) != 0.0
    ensures Mul(Inverse(m), m) == Identity
    ensures Mul(m, Inverse(m)) == Identity
  {
    var d := Determinant(m);
    MulScaledLeft(Adjugate(m), m, 1.0 / d);
    AdjugateTimesMatrix(m);
    MulScaledRight(m, Adjugate(m), 1.0 / d);
    MatrixTimesAdjugate(m);
    ScaledIdentityCancels(d);
  }

  // ---------------------------------------------------------------------------
  // Transpose and trace
  // ---------------------------------------------------------------------------

  /** transposing twice gives the matrix back, and the trace is unchanged by transposing */
  lemma TransposeInvolutionAndTrace(m: Mat4)
    ensures Transpose(Transpose(m)) == m
    ensures Trace(Transpose(m)) == Trace(m)
  {
  }

  /** the transpose of a product is the product of the transposes in reverse order */
  lemma TransposeOfProduct(a: Mat4, b: Mat4)
    ensures Transpose(Mul(a, b)) == Mul(Transpose(b), Transpose(a))
  {
    var ta, tb := Transpose(a), Transpose(b);
    RowTimesColumnSwap(a.m00, a.m01, a.m02, a.m03, b.m00, b.m10, b.m20, b.m30);
    assert Mul(tb, ta).m00 == RowTimesColumn(tb.m00, tb.m01, tb.m02, tb.m03, ta.m00, ta.m10, ta.m20, ta.m30);
    RowTimesColumnSwap(a.m10, a.m11, a.m12, a.m13, b.m00, b.m10, b.m20, b.m30);
    assert Mul(tb, ta).m01 == RowTimesColumn(tb.m00, tb.m01, tb.m02, tb.m03, ta.m01, ta.m11, ta.m21, ta.m31);
    RowTimesColumnSwap(a.m20, a.m21, a.m22, a.m23, b.m00, b.m10, b.m20, b.m30);
    assert Mul(tb, ta).m02 == RowTimesColumn(tb.m00, tb.m01, tb.m02, tb.m03, ta.m02, ta.m12, ta.m22, ta.m32);
    RowTimesColumnSwap(a.m30, a.m31, a.m32, a.m33, b.m00, b.m10, b.m20, b.m30);
    assert Mul(tb, ta).m03 == RowTimesColumn(tb.m00, tb.m01, tb.m02, tb.m03, ta.m03, ta.m13, ta.m23, ta.m33);
    RowTimesColumnSwap(a.m00, a.m01, a.m02, a.m03, b.m01, b.m11, b.m21, b.m31);
    assert Mul(tb, ta).m10 == RowTimesColumn(tb.m10, tb.m11, tb.m12, tb.m13, ta.m00, ta.m10, ta.m20, ta.m30);
    RowTimesColumnSwap(a.m10, a.m11, a.m12, a.m13, b.m01, b.m11, b.m21, b.m31);
    assert Mul(tb, ta).m11 == RowTimesColumn(tb.m10, tb.m11, tb.m12, tb.m13, ta.m01, ta.m11, ta.m21, ta.m31);
    RowTimesColumnSwap(a.m20, a.m21, a.m22, a.m23, b.m01, b.m11, b.m21, b.m31);
    assert Mul(tb, ta).m12 == RowTimesColumn(tb.m10, tb.m11, tb.m12, tb.m13, ta.m02, ta.m12, ta.m22, ta.m32);
    RowTimesColumnSwap(a.m30, a.m31, a.m32, a.m33, b.m01, b.m11, b.m21, b.m31);
    assert Mul(tb, ta).m13 == RowTimesColumn(tb.m10, tb.m11, tb.m12, tb.m13, ta.m03, ta.m13, ta.m23, ta.m33);
    RowTimesColumnSwap(a.m00, a.m01, a.m02, a.m03, b.m02, b.m12, b.m22, b.m32);
    assert Mul(tb, ta).m20 == RowTimesColumn(tb.m20, tb.m21, tb.m22, tb.m23, ta.m00, ta.m10, ta.m20, ta.m30);
    RowTimesColumnSwap(a.m10, a.m11, a.m12, a.m13, b.m02, b.m12, b.m22, b.m32);
    assert Mul(tb, ta).m21 == RowTimesColumn(tb.m20, tb.m21, tb.m22, tb.m23, ta.m01, ta.m11, ta.m21, ta.m31);
    RowTimesColumnSwap(a.m20, a.m21, a.m22, a.m23, b.m02, b.m12, b.m22, b.m32);
    assert Mul(tb, ta).m22 == RowTimesColumn(tb.m20, tb.m21, tb.m22, tb.m23, ta.m02, ta.m12, ta.m22, ta.m32);
    RowTimesColumnSwap(a.m30, a.m31, a.m32, a.m33, b.m02, b.m12, b.m22, b.m32);
    assert Mul(tb, ta).m23 == RowTimesColumn(tb.m20, tb.m21, tb.m22, tb.m23, ta.m03, ta.m13, ta.m23, ta.m33);
    RowTimesColumnSwap(a.m00, a.m01, a.m02, a.m03, b.m03, b.m13, b.m23, b.m33);
    assert Mul(tb, ta).m30 == RowTimesColumn(tb.m30, tb.m31, tb.m32, tb.m33, ta.m00, ta.m10, ta.m20, ta.m30);
    RowTimesColumnSwap(a.m10, a.m11, a.m12, a.m13, b.m03, b.m13, b.m23, b.m33);
    assert Mul(tb, ta).m31 == RowTimesColumn(tb.m30, tb.m31, tb.m32, tb.m33, ta.m01, ta.m11, ta.m21, ta.m31);
    RowTimesColumnSwap(a.m20, a.m21, a.m22, a.m23, b.m03, b.m13, b.m23, b.m33);
    assert Mul(tb, ta).m32 == RowTimesColumn(tb.m30, tb.m31, tb.m32, tb.m33, ta.m02, ta.m12, ta.m22, ta.m32);
    RowTimesColumnSwap(a.m30, a.m31, a.m32, a.m33, b.m03, b.m13, b.m23, b.m33);
    assert Mul(tb, ta).m33 == RowTimesColumn(tb.m30, tb.m31, tb.m32, tb.m33, ta.m03, ta.m13, ta.m23, ta.m33);
  }

  /** a row times a column is the column times the row */
  lemma RowTimesColumnSwap(r0: real, r1: real, r2: real, r3: real, c0: real, c1: real, c2: real, c3: real)
    ensures RowTimesColumn(r0, r1, r2, r3, c0, c1, c2, c3) == RowTimesColumn(c0, c1, c2, c3, r0, r1, r2, r3)
  {
  }

  // ---------------------------------------------------------------------------
  // Rotation builders (the matrices `rotate_ox/oy/oz/axis` multiply by on the right)
  // ---------------------------------------------------------------------------

  /** the matrix `rotate_ox` builds from ca = cos(angle), sa = sin(angle) */
  function RotOx(ca: real, sa: real): Mat4 {
    Mat4(
      1.0, 0.0, 0.0, 0.0,
      0.0, ca, sa, 0.0,
      0.0, -sa, ca, 0.0,
      0.0, 0.0, 0.0, 1.0)
  }

  /** the matrix `rotate_oy` builds */
  function RotOy(ca: real, sa: real): Mat4 {
    Mat4(
      ca, 0.0, -sa, 0.0,
      0.0, 1.0, 0.0, 0.0,
      sa, 0.0, ca, 0.0,
      0.0, 0.0, 0.0, 1.0)
  }

  /** the matrix `rotate_oz` builds */
  function RotOz(ca: real, sa: real): Mat4 {
    Mat4(
      ca, -sa, 0.0, 0.0,
      sa, ca, 0.0, 0.0,
      0.0, 0.0, 1.0, 0.0,
      0.0, 0.0, 0.0, 1.0)
  }

  /** the matrix `rotate_axis` builds (Rodrigues' formula; the axis is not normalised) */
  function RotAxis(ca: real, sa: real, axis: Vec3): Mat4 {
    var x, y, z := axis.x, axis.y, axis.z;
    Mat4(
      ca + (1.0 - ca) * x * x, (1.0 - ca) * x * y - z * sa, (1.0 - ca) * x * z + y * sa, 0.0,
      (1.0 - ca) * x * y + z * sa, ca + (1.0 - ca) * y * y, (1.0 - ca) * y * z - x * sa, 0.0,
      (1.0 - ca) * x * z - y * sa, (1.0 - ca) * y * z + x * sa, ca + (1.0 - ca) * z * z, 0.0,
      0.0, 0.0, 0.0, 1.0)
  }

  /** at angle zero (cos 1, sin 0) every rotation matrix is the identity */
  lemma RotationsAtZero(axis: Vec3)
    ensures RotOx(1.0, 0.0) == Identity && RotOy(1.0, 0.0) == Identity && RotOz(1.0, 0.0) == Identity
    ensures RotAxis(1.0, 0.0, axis) == Identity
  {
  }

  /** on the unit circle each axis rotation is orthonormal: its transpose is its inverse */
  lemma AxisRotationsOrthonormal(ca: real, sa: real)
    requires Sq(ca) + Sq(sa) == 1.0
    ensures Mul(RotOx(ca, sa), Transpose(RotOx(ca, sa))) == Identity
    ensures Mul(RotOy(ca, sa), Transpose(RotOy(ca, sa))) == Identity
    ensures Mul(RotOz(ca, sa), Transpose(RotOz(ca, sa))) == Identity
    ensures Determinant(RotOx(ca, sa)) == 1.0
    ensures Determinant(RotOy(ca, sa)) == 1.0
    ensures Determinant(RotOz(ca, sa)) == 1.0
  {
  }

  /** two rotations about the same axis compose into one whose cosine and sine are those of
      the summed angle (cos(a+b) = cos a cos b - sin a sin b, sin(a+b) = sin a cos b + cos a sin b) */
  lemma AxisRotationsCompose(c1: real, s1: real, c2: real, s2: real)
    ensures Mul(RotOx(c1, s1), RotOx(c2, s2)) == RotOx(c1 * c2 - s1 * s2, s1 * c2 + c1 * s2)
    ensures Mul(RotOy(c1, s1), RotOy(c2, s2)) == RotOy(c1 * c2 - s1 * s2, s1 * c2 + c1 * s2)
    ensures Mul(RotOz(c1, s1), RotOz(c2, s2)) == RotOz(c1 * c2 - s1 * s2, s1 * c2 + c1 * s2)
  {
  }

  /** about a coordinate axis, `rotate_axis` agrees with `rotate_oz` but turns the opposite
      way to `rotate_ox` and `rotate_oy` */
  lemma RotAxisAboutCoordinateAxes(ca: real, sa: real)
    ensures RotAxis(ca, sa, Vec3(0.0, 0.0, 1.0)) == RotOz(ca, sa)
    ensures RotAxis(ca, sa, Vec3(1.0, 0.0, 0.0)) == RotOx(ca, -sa)
    ensures RotAxis(ca, sa, Vec3(0.0, 1.0, 0.0)) == RotOy(ca, -sa)
  {
  }

  // ---------------------------------------------------------------------------
  // Translation and point transformation
  // ---------------------------------------------------------------------------

  /** what `translate(v)` / `translate(x, y, z)` leave in the matrix: row 3, columns 0-2 become
      x * row 0 + y * row 1 + z * row 2 + row 3; nothing else changes */
  function Translated(m: Mat4, v: Vec3): Mat4 {
    m.(m30 := m.m00 * v.x + m.m10 * v.y + m.m20 * v.z + m.m30,
       m31 := m.m01 * v.x + m.m11 * v.y + m.m21 * v.z + m.m31,
       m32 := m.m02 * v.x + m.m12 * v.y + m.m22 * v.z + m.m32)
  }

  /** the identity with the translation v in row 3: what `translate(v)` makes of the identity */
  function TranslationMatrix(v: Vec3): Mat4 {
    Identity.(m30 := v.x, m31 := v.y, m32 := v.z)
  }

  /** translating the identity gives the translation matrix; translating by zero changes nothing;
      and only the three entries m30, m31, m32 can change */
  lemma TranslatedFacts(m: Mat4, v: Vec3)
    ensures Translated(Identity, v) == TranslationMatrix(v)
    ensures Translated(m, Zero) == m
    ensures forall i, j | 0 <= i < 4 && 0 <= j < 4 && (i != 3 || j == 3) :: At(Translated(m, v), i, j) == At(m, i, j)
  {
  }

  /** two translations add up: translating by u and then by v is translating by u + v */
  lemma TranslationsCompose(m: Mat4, u: Vec3, v: Vec3)
    ensures Translated(Translated(m, u), v) == Translated(m, Vector3.Add(u, v))
  {
    var w := Vector3.Add(u, v);
    var t := Translated(m, u);
    assert t.m00 * v.x == m.m00 * v.x;
    assert t.m10 * v.y == m.m10 * v.y;
    assert t.m20 * v.z == m.m20 * v.z;
    assert t.m01 * v.x == m.m01 * v.x;
    assert t.m11 * v.y == m.m11 * v.y;
    assert t.m21 * v.z == m.m21 * v.z;
    assert t.m02 * v.x == m.m02 * v.x;
    assert t.m12 * v.y == m.m12 * v.y;
    assert t.m22 * v.z == m.m22 * v.z;
    assert m.m00 * w.x == m.m00 * u.x + m.m00 * v.x;
    assert m.m10 * w.y == m.m10 * u.y + m.m10 * v.y;
    assert m.m20 * w.z == m.m20 * u.z + m.m20 * v.z;
    assert m.m01 * w.x == m.m01 * u.x + m.m01 * v.x;
    assert m.m11 * w.y == m.m11 * u.y + m.m11 * v.y;
    assert m.m21 * w.z == m.m21 * u.z + m.m21 * v.z;
    assert m.m02 * w.x == m.m02 * u.x + m.m02 * v.x;
    assert m.m12 * w.y == m.m12 * u.y + m.m12 * v.y;
    assert m.m22 * w.z == m.m22 * u.z + m.m22 * v.z;
    EqualEntries(Translated(t, v), Translated(m, w));
  }

  /** `translate` is multiplication on the left by the translation matrix, when column 3 of m
      is (0, 0, 0, w) as in every affine transform built by the renderer */
  lemma TranslatedIsProduct(m: Mat4, v: Vec3)
    requires m.m03 == 0.0 && m.m13 == 0.0 && m.m23 == 0.0
    ensures Translated(m, v) == Mul(TranslationMatrix(v), m)
  {
    var t := TranslationMatrix(v);
    assert Mul(t, m).m33 == m.m33 by {
      assert Mul(t, m).m33 == RowTimesColumn(v.x, v.y, v.z, 1.0, m.m03, m.m13, m.m23, m.m33);
    }
    EqualEntries(Translated(m, v), Mul(t, m));
  }

  /** both `transform` overloads: rows 0-2 applied to (x, y, z, 1); the fourth product is computed
      by the source and then dropped */
  function TransformPoint(m: Mat4, p: Vec3): Vec3 {
    Vec3(
      m.m00 * p.x + m.m01 * p.y + m.m02 * p.z + m.m03,
      m.m10 * p.x + m.m11 * p.y + m.m12 * p.z + m.m13,
      m.m20 * p.x + m.m21 * p.y + m.m22 * p.z + m.m23)
  }

  /** the transform never reads row 3, so it ignores what `translate` writes there:
      a translated matrix moves points exactly as the untranslated one */
  lemma TransformIgnoresRow3(m: Mat4, n: Mat4, p: Vec3, v: Vec3)
    requires m.m00 == n.m00 && m.m01 == n.m01 && m.m02 == n.m02 && m.m03 == n.m03
    requires m.m10 == n.m10 && m.m11 == n.m11 && m.m12 == n.m12 && m.m13 == n.m13
    requires m.m20 == n.m20 && m.m21 == n.m21 && m.m22 == n.m22 && m.m23 == n.m23
    ensures TransformPoint(m, p) == TransformPoint(n, p)
    ensures TransformPoint(Translated(m, v), p) == TransformPoint(m, p)
  {
  }

  /** the identity leaves points where they are, and column 3 is the offset added to every point */
  lemma TransformIdentityAndOffset(m: Mat4, p: Vec3)
    ensures TransformPoint(Identity, p) == p
    ensures TransformPoint(m, Zero) == Vec3(m.m03, m.m13, m.m23)
  {
  }

  // ---------------------------------------------------------------------------
  // Projection builders and `data_from_perspective`
  // ---------------------------------------------------------------------------

  /** `perspective(fovY, aspectRatio, zNear, zFar)`, with f = 1 / tan(fovY / 2); the matrix is read
      by the graphics library column by column, so it maps the row vector (x, y, z, 1) */
  function Perspective(fovY: real, aspectRatio: real, zNear: real, zFar: real, lib: Libm): Mat4
    requires lib.tan(0.5 * fovY) != 0.0 && aspectRatio != 0.0 && zNear != zFar
  {
    var f := 1.0 / lib.tan(0.5 * fovY);
    Mat4(
      f / aspectRatio, 0.0, 0.0, 0.0,
      0.0, f, 0.0, 0.0,
      0.0, 0.0, (zFar + zNear) / (zNear - zFar), -1.0,
      0.0, 0.0, (2.0 * zFar * zNear) / (zNear - zFar), 0.0)
  }

  /** the depth row of a perspective matrix sends the near plane z = -zNear to clip depth -w and the
      far plane z = -zFar to clip depth +w, with w = -z; the aspect ratio is m11 / m00 */
  lemma PerspectiveMapsFrustumDepth(fovY: real, aspectRatio: real, zNear: real, zFar: real, lib: Libm)
    requires lib.tan(0.5 * fovY) != 0.0 && aspectRatio != 0.0 && zNear != zFar
    ensures var p := Perspective(fovY, aspectRatio, zNear, zFar, lib);
      && (-zNear) * p.m22 + p.m32 == -zNear && (-zNear) * p.m23 == zNear
      && (-zFar) * p.m22 + p.m32 == zFar && (-zFar) * p.m23 == zFar
      && p.m11 / p.m00 == aspectRatio
  {
    var p := Perspective(fovY, aspectRatio, zNear, zFar, lib);
    DepthRow(zNear, zFar);
    var f := 1.0 / lib.tan(0.5 * fovY);
    assert f != 0.0;
    assert p.m11 / p.m00 == f / (f / aspectRatio);
  }

  /** the arithmetic behind the depth row: with d = n - f,
      -n (f + n) / d + 2 f n / d = -n  and  -f (f + n) / d + 2 f n / d = f */
  lemma DepthRow(n: real, f: real)
    requires n != f
    ensures (-n) * ((f + n) / (n - f)) + (2.0 * f * n) / (n - f) == -n
    ensures (-f) * ((f + n) / (n - f)) + (2.0 * f * n) / (n - f) == f
  {
    var d := n - f;
    ScaledQuotientSum(-n, f + n, 2.0 * f * n, d, -n);
    ScaledQuotientSum(-f, f + n, 2.0 * f * n, d, f);
  }

  /** a * (b / d) + c / d == r whenever a * b + c == r * d and d is non-zero */
  lemma ScaledQuotientSum(a: real, b: real, c: real, d: real, r: real)
    requires d != 0.0 && a * b + c == r * d
    ensures a * (b / d) + c / d == r
  {
    assert a * (b / d) == (a * b) / d;
    assert (a * b) / d + c / d == (a * b + c) / d;
  }

  /** `ortho(left, right, bottom, top, near_, far_)`, read as `perspective` is */
  function Ortho(left: real, right: real, bottom: real, top: real, near: real, far: real): Mat4
    requires right != left && top != bottom && far != near
  {
    var tx := -(right + left) / (right - left);
    var ty := -(top + bottom) / (top - bottom);
    var tz := -(far + near) / (far - near);
    Mat4(
      2.0 / (right - left), 0.0, 0.0, 0.0,
      0.0, 2.0 / (top - bottom), 0.0, 0.0,
      0.0, 0.0, -2.0 / (far - near), 0.0,
      tx, ty, tz, 1.0)
  }

  /** the ortho matrix maps the box [left, right] x [bottom, top] x [-near, -far] onto the cube
      [-1, 1]^3: each bound goes to -1 or 1 */
  lemma OrthoMapsBoxToCube(left: real, right: real, bottom: real, top: real, near: real, far: real)
    requires right != left && top != bottom && far != near
    ensures var o := Ortho(left, right, bottom, top, near, far);
      && left * o.m00 + o.m30 == -1.0 && right * o.m00 + o.m30 == 1.0
      && bottom * o.m11 + o.m31 == -1.0 && top * o.m11 + o.m31 == 1.0
      && (-near) * o.m22 + o.m32 == -1.0 && (-far) * o.m22 + o.m32 == 1.0
  {
    OrthoAxis(left, right);
    OrthoAxis(bottom, top);
    OrthoAxis(near, far);
    assert (-near) * (-2.0 / (far - near)) == near * (2.0 / (far - near));
    assert (-far) * (-2.0 / (far - near)) == far * (2.0 / (far - near));
  }

  /** one axis of `ortho`: lo * 2 / (hi - lo) - (hi + lo) / (hi - lo) = -1, and hi goes to 1 */
  lemma OrthoAxis(lo: real, hi: real)
    requires hi != lo
    ensures lo * (2.0 / (hi - lo)) + -(hi + lo) / (hi - lo) == -1.0
    ensures hi * (2.0 / (hi - lo)) + -(hi + lo) / (hi - lo) == 1.0
  {
    var d := hi - lo;
    assert lo * (2.0 / d) == (2.0 * lo) / d;
    assert hi * (2.0 / d) == (2.0 * hi) / d;
    assert (2.0 * lo) / d + -(hi + lo) / d == (2.0 * lo - (hi + lo)) / d;
    assert (2.0 * hi) / d + -(hi + lo) / d == (2.0 * hi - (hi + lo)) / d;
  }

  /** the four outputs of `data_from_perspective` (its reference parameters) */
  datatype PerspectiveParams = PerspectiveParams(fovY: real, aspectRatio: real, zNear: real, zFar: real)

  /** `data_from_perspective` as written: whether it succeeded, and the outputs after the call
      (each output is written just before the next check, so a failure keeps the earlier writes
      and leaves the later outputs as the caller had them). zNear and zFar are read from m23 */
  function PerspectiveDataOf(m: Mat4, prior: PerspectiveParams, lib: Libm): (bool, PerspectiveParams) {
    if m.m11 == 0.0 then (false, prior)
    else
      var p1 := prior.(fovY := 2.0 * lib.atan(1.0 / m.m11) * Constants.RadToDeg);
      if m.m00 == 0.0 then (false, p1)
      else
        var p2 := p1.(aspectRatio := m.m11 / m.m00);
        if m.m22 - 1.0 == 0.0 then (false, p2)
        else
          var p3 := p2.(zNear := m.m23 / (m.m22 - 1.0));
          if m.m22 + 1.0 == 0.0 then (false, p3)
          else (true, p3.(zFar := m.m23 / (m.m22 + 1.0)))
  }

  /** the recovery with zNear and zFar read from m32, where `perspective` stores 2 zFar zNear / (zNear - zFar) */
  function PerspectiveDataOfCorrected(m: Mat4, prior: PerspectiveParams, lib: Libm): (bool, PerspectiveParams) {
    var (ok, p) := PerspectiveDataOf(m, prior, lib);
    if m.m11 == 0.0 || m.m00 == 0.0 || m.m22 - 1.0 == 0.0 then (ok, p)
    else
      var p3 := p.(zNear := m.m32 / (m.m22 - 1.0));
      if m.m22 + 1.0 == 0.0 then (ok, p3)
      else (ok, p3.(zFar := m.m32 / (m.m22 + 1.0)))
  }

  /** the call fails exactly when one of the four divisors is zero; the outputs assigned before
      the failing check keep the quotients the source computes, and the later ones are left as
      the caller had them */
  lemma PerspectiveDataFailure(m: Mat4, prior: PerspectiveParams, lib: Libm)
    ensures var (ok, p) := PerspectiveDataOf(m, prior, lib);
      && (ok <==> m.m11 != 0.0 && m.m00 != 0.0 && m.m22 != 1.0 && m.m22 != -1.0)
      && (m.m11 == 0.0 ==> p == prior)
      && (m.m11 != 0.0 ==> p.fovY == 2.0 * lib.atan(1.0 / m.m11) * Constants.RadToDeg)
      && (m.m11 != 0.0 && m.m00 == 0.0 ==> p == prior.(fovY := p.fovY))
      && (m.m11 != 0.0 && m.m00 != 0.0 ==> p.aspectRatio * m.m00 == m.m11)
      && (m.m11 != 0.0 && m.m00 != 0.0 && m.m22 == 1.0 ==> p.zNear == prior.zNear && p.zFar == prior.zFar)
      && (m.m11 != 0.0 && m.m00 != 0.0 && m.m22 == -1.0 ==> p.zNear * -2.0 == m.m23 && p.zFar == prior.zFar)
      && (ok ==> p.zNear * (m.m22 - 1.0) == m.m23 && p.zFar * (m.m22 + 1.0) == m.m23)
  {
  }

  /** on a perspective matrix with non-zero planes the call succeeds and returns the aspect ratio
      and, when atan inverts tan at half the angle, the angle in degrees (though `perspective` takes
      radians); but zNear and zFar come out as (zFar - zNear) / (2 zFar) and (zFar - zNear) / (2 zNear) */
  lemma PerspectiveDataAsWritten(fovY: real, aspectRatio: real, zNear: real, zFar: real, prior: PerspectiveParams, lib: Libm)
    requires lib.tan(0.5 * fovY) != 0.0 && aspectRatio != 0.0 && zNear != zFar
    requires zNear != 0.0 && zFar != 0.0
    ensures var (ok, p) := PerspectiveDataOf(Perspective(fovY, aspectRatio, zNear, zFar, lib), prior, lib);
      && ok
      && p.aspectRatio == aspectRatio
      && (lib.atan(lib.tan(0.5 * fovY)) == 0.5 * fovY ==> p.fovY == fovY * Constants.RadToDeg)
      && p.zNear == (zFar - zNear) / (2.0 * zFar)
      && p.zFar == (zFar - zNear) / (2.0 * zNear)
  {
    var m := Perspective(fovY, aspectRatio, zNear, zFar, lib);
    var t := lib.tan(0.5 * fovY);
    PerspectiveMapsFrustumDepth(fovY, aspectRatio, zNear, zFar, lib);
    assert 1.0 / m.m11 == t;
    DepthDivisors(zNear, zFar);
  }

  /** with d = n - f: (f + n) / d - 1 = 2 f / d and (f + n) / d + 1 = 2 n / d, and
      -1 and 2 f n / d divided by these give (f - n) / 2f, (f - n) / 2n, n and f */
  lemma DepthDivisors(n: real, f: real)
    requires n != f && n != 0.0 && f != 0.0
    ensures (f + n) / (n - f) - 1.0 == (2.0 * f) / (n - f) != 0.0
    ensures (f + n) / (n - f) + 1.0 == (2.0 * n) / (n - f) != 0.0
    ensures -1.0 / ((f + n) / (n - f) - 1.0) == (f - n) / (2.0 * f)
    ensures -1.0 / ((f + n) / (n - f) + 1.0) == (f - n) / (2.0 * n)
    ensures ((2.0 * f * n) / (n - f)) / ((f + n) / (n - f) - 1.0) == n
    ensures ((2.0 * f * n) / (n - f)) / ((f + n) / (n - f) + 1.0) == f
  {
    var d := n - f;
    QuotientShift(f + n, d);
    QuotientOfQuotients(-1.0, 1.0, 2.0 * f, d);
    QuotientOfQuotients(-1.0, 1.0, 2.0 * n, d);
    QuotientOfQuotients(2.0 * f * n, d, 2.0 * f, d);
    QuotientOfQuotients(2.0 * f * n, d, 2.0 * n, d);
  }

  /** x / d - 1 = (x - d) / d and x / d + 1 = (x + d) / d */
  lemma QuotientShift(x: real, d: real)
    requires d != 0.0
    ensures x / d - 1.0 == (x - d) / d
    ensures x / d + 1.0 == (x + d) / d
  {
    assert (x - d) / d == x / d - d / d;
    assert (x + d) / d == x / d + d / d;
  }

  /** (a / b) / (c / d) = (a d) / (b c) */
  lemma QuotientOfQuotients(a: real, b: real, c: real, d: real)
    requires b != 0.0 && c != 0.0 && d != 0.0
    ensures (a / b) / (c / d) == (a * d) / (b * c)
  {
  }

  /** the discrepancy on a concrete frustum: for zNear = 1 and zFar = 3 the call reports
      zNear = 1/3 and zFar = 1, where the corrected reading gives 1 and 3 back */
  lemma PerspectiveDataNearFarCounterexample(fovY: real, prior: PerspectiveParams, lib: Libm)
    requires lib.tan(0.5 * fovY) != 0.0
    ensures PerspectiveDataOf(Perspective(fovY, 1.0, 1.0, 3.0, lib), prior, lib).1.zNear == 1.0 / 3.0
    ensures PerspectiveDataOf(Perspective(fovY, 1.0, 1.0, 3.0, lib), prior, lib).1.zFar == 1.0
    ensures PerspectiveDataOfCorrected(Perspective(fovY, 1.0, 1.0, 3.0, lib), prior, lib).1.zNear == 1.0
    ensures PerspectiveDataOfCorrected(Perspective(fovY, 1.0, 1.0, 3.0, lib), prior, lib).1.zFar == 3.0
  {
    PerspectiveDataAsWritten(fovY, 1.0, 1.0, 3.0, prior, lib);
    PerspectiveDataRoundTrip(fovY, 1.0, 1.0, 3.0, prior, lib);
  }

  /** the corrected reading inverts `perspective`: the aspect ratio, zNear and zFar all come back */
  lemma PerspectiveDataRoundTrip(fovY: real, aspectRatio: real, zNear: real, zFar: real, prior: PerspectiveParams, lib: Libm)
    requires lib.tan(0.5 * fovY) != 0.0 && aspectRatio != 0.0 && zNear != zFar
    requires zNear != 0.0 && zFar != 0.0
    ensures var (ok, p) := PerspectiveDataOfCorrected(Perspective(fovY, aspectRatio, zNear, zFar, lib), prior, lib);
      ok && p.aspectRatio == aspectRatio && p.zNear == zNear && p.zFar == zFar
  {
    PerspectiveDataAsWritten(fovY, aspectRatio, zNear, zFar, prior, lib);
    DepthDivisors(zNear, zFar);
  }

  // ---------------------------------------------------------------------------
  // Tolerant equality (`==`, `!=`)
  // ---------------------------------------------------------------------------

  /** every one of the 16 entries is `equals` to its counterpart (|difference| < 10E-5) */
  predicate EqualWithinTolerance(a: Mat4, b: Mat4) {
    forall i, j | 0 <= i < 4 && 0 <= j < 4 :: Constants.Equals(At(a, i, j), At(b, i, j))
  }

  /** the flat 16-entry `vector` view of the matrix (row-major) */
  function Entries(m: Mat4): (v: seq<real>)
    ensures |v| == 16
  {
    [m.m00, m.m01, m.m02, m.m03, m.m10, m.m11, m.m12, m.m13, m.m20, m.m21, m.m22, m.m23, m.m30, m.m31, m.m32, m.m33]
  }

  /** entry k of the flat view is the matrix entry at row k / 4, column k % 4 */
  function Flat(m: Mat4, k: nat): real
    requires k < 16
  {
    Entries(m)[k]
  }

  /** flat entry k is `At(m, k / 4, k % 4)` */
  lemma FlatIsAt(m: Mat4, k: nat)
    requires k < 16
    ensures Flat(m, k) == At(m, k / 4, k % 4)
  {
  }

  /** comparing the flat entries one by one is comparing the matrix entries */
  lemma FlatEntriesCover(a: Mat4, b: Mat4)
    ensures EqualWithinTolerance(a, b) <==> forall k | 0 <= k < 16 :: Constants.Equals(Flat(a, k), Flat(b, k))
  {
    forall k | 0 <= k < 16
      ensures Flat(a, k) == At(a, k / 4, k % 4) && Flat(b, k) == At(b, k / 4, k % 4)
    {
      FlatIsAt(a, k);
      FlatIsAt(b, k);
    }
    if forall k | 0 <= k < 16 :: Constants.Equals(Flat(a, k), Flat(b, k)) {
      forall i, j | 0 <= i < 4 && 0 <= j < 4
        ensures Constants.Equals(At(a, i, j), At(b, i, j))
      {
        var k := 4 * i + j;
        assert k / 4 == i && k % 4 == j;
        assert Constants.Equals(Flat(a, k), Flat(b, k));
      }
    }
  }

  /** which flat entries of two matrices are `equals` */
  ghost function EntryMatches(a: Mat4, b: Mat4): (matches: seq<bool>)
    ensures |matches| == 16
    ensures forall k | 0 <= k < 16 :: matches[k] == Constants.Equals(Flat(a, k), Flat(b, k))
  {
    seq(16, k requires 0 <= k < 16 => Constants.Equals(Flat(a, k), Flat(b, k)))
  }

  /** 2 to the power k, the value of the mask bit `1 << k` */
  function Pow2(k: nat): (p: nat)
    ensures p >= 1
  {
    if k == 0 then 1 else 2 * Pow2(k - 1)
  }

  lemma Pow2Of16()
    ensures Pow2(16) == 0x10000
  {
    assert Pow2(1) == 2;
    assert Pow2(2) == 4;
    assert Pow2(3) == 8;
    assert Pow2(4) == 16;
    assert Pow2(5) == 32;
    assert Pow2(6) == 64;
    assert Pow2(7) == 128;
    assert Pow2(8) == 256;
    assert Pow2(9) == 512;
    assert Pow2(10) == 1024;
    assert Pow2(11) == 2048;
    assert Pow2(12) == 4096;
    assert Pow2(13) == 8192;
    assert Pow2(14) == 16384;
    assert Pow2(15) == 32768;
  }

  /** the `chf` mask after the first n comparisons: bit k is set when entry k matched */
  function MatchMask(matches: seq<bool>, n: nat): nat
    requires n <= |matches|
  {
    if n == 0 then 0 else MatchMask(matches, n - 1) + (if matches[n - 1] then Pow2(n - 1) else 0)
  }

  /** the mask of n comparisons stays below 2^n, so bit n is still clear when comparison n sets
      it; it reaches 2^n - 1 (all n bits set) exactly when every one of the n entries matched */
  lemma {:induction false} MatchMaskBound(matches: seq<bool>, n: nat)
    requires n <= |matches|
    ensures MatchMask(matches, n) <= Pow2(n) - 1
    ensures MatchMask(matches, n) == Pow2(n) - 1 <==> forall k | 0 <= k < n :: matches[k]
  {
    if n > 0 {
      MatchMaskBound(matches, n - 1);
      if !matches[n - 1] {
        assert MatchMask(matches, n) < Pow2(n) - 1;
      } else if MatchMask(matches, n) == Pow2(n) - 1 {
        assert forall k | 0 <= k < n - 1 :: matches[k];
      }
    }
  }

  /** the mask of all 16 comparisons is 0xFFFF exactly when the matrices are equal within the
      tolerance */
  lemma MaskMeansEqual(a: Mat4, b: Mat4)
    ensures MatchMask(EntryMatches(a, b), 16) == 0xFFFF <==> EqualWithinTolerance(a, b)
  {
    MatchMaskBound(EntryMatches(a, b), 16);
    Pow2Of16();
    FlatEntriesCover(a, b);
  }

  /** unlike the vector comparison, matrix `==` is reflexive and symmetric */
  lemma EqualWithinToleranceReflexiveSymmetric(a: Mat4, b: Mat4)
    ensures EqualWithinTolerance(a, a)
    ensures EqualWithinTolerance(a, b) <==> EqualWithinTolerance(b, a)
  {
    forall i, j | 0 <= i < 4 && 0 <= j < 4
      ensures Constants.Equals(At(a, i, j), At(b, i, j)) <==> Constants.Equals(At(b, i, j), At(a, i, j))
      ensures Constants.Equals(At(a, i, j), At(a, i, j))
    {
      Constants.EqualsIsStrictBand(At(a, i, j), At(b, i, j), Constants.DefaultEps);
      Constants.EqualsIsStrictBand(At(a, i, j), At(a, i, j), Constants.DefaultEps);
    }
  }

  // ---------------------------------------------------------------------------
  // The `matrix4` object
  // ---------------------------------------------------------------------------

  /** a `matrix4` object: its 16 entries `matrix[i][j]` in a 4x4 array that the compound
      operators, `set*`, `rotate_*` and `translate` overwrite in place */
  class Matrix {
    const matrix: array2<real>

    ghost predicate Valid() {
      matrix.Length0 == 4 && matrix.Length1 == 4
    }

    /** the entries as a value */
    function Value(): Mat4
      requires Valid()
      reads matrix
    {
      Mat4(matrix[0, 0], matrix[0, 1], matrix[0, 2], matrix[0, 3], matrix[1, 0], matrix[1, 1], matrix[1, 2], matrix[1, 3], matrix[2, 0], matrix[2, 1], matrix[2, 2], matrix[2, 3], matrix[3, 0], matrix[3, 1], matrix[3, 2], matrix[3, 3])
    }

    /** the default constructor: the identity */
    constructor ()
      ensures Valid() && fresh(matrix)
      ensures Value() == Identity
    {
      matrix := new real[4, 4]((i: int, j: int) => if i == j then 1.0 else 0.0);
    }

    /** the initialization constructor (16 entries), the copy constructor and the constructor
        from a 16-entry vector all copy the given entries */
    constructor FromValue(m: Mat4)
      ensures Valid() && fresh(matrix)
      ensures Value() == m
    {
      matrix := new real[4, 4]((i: int, j: int) => if 0 <= i < 4 && 0 <= j < 4 then At(m, i, j) else 0.0);
    }

    /** overwrites all 16 entries with those of m, row by row */
    method Store(m: Mat4)
      requires Valid()
      modifies matrix
      ensures Value() == m
    {
      for i := 0 to 4
        invariant forall k, l | 0 <= k < i && 0 <= l < 4 :: matrix[k, l] == At(m, k, l)
      {
        for j := 0 to 4
          invariant forall k, l | 0 <= k < i && 0 <= l < 4 :: matrix[k, l] == At(m, k, l)
          invariant forall l | 0 <= l < j :: matrix[i, l] == At(m, i, l)
        {
          matrix[i, j] := At(m, i, j);
        }
      }
    }

    /** `set(...)` and `from_openglmatrix`: all 16 entries replaced */
    method Set(m: Mat4)
      requires Valid()
      modifies matrix
      ensures Value() == m
    {
      Store(m);
    }

    /** `get_coefficient(i, j)` */
    method GetCoefficient(i: nat, j: nat) returns (v: real)
      requires Valid() && i < 4 && j < 4
      ensures v == At(Value(), i, j)
    {
      v := matrix[i, j];
    }

    /** `set_coefficient(i, j, val)`: entry (i, j) becomes val, the other 15 stay */
    method SetCoefficient(i: nat, j: nat, val: real)
      requires Valid() && i < 4 && j < 4
      modifies matrix
      ensures Value() == With(old(Value()), i, j, val)
    {
      ghost var before := Value();
      matrix[i, j] := val;
      Extensionality(Value(), With(before, i, j, val));
    }

    /** `operator =`; rhs may be this matrix itself */
    method Assign(rhs: Matrix)
      requires Valid() && rhs.Valid()
      modifies matrix
      ensures Value() == old(rhs.Value())
    {
      var v := rhs.Value();
      Store(v);
    }

    /** `+=`: each entry adds the entry of rhs at the same place; since every new entry depends
        only on the old entries at its own place, rhs may be this matrix itself */
    method AddAssign(rhs: Matrix)
      requires Valid() && rhs.Valid()
      modifies matrix
      ensures Value() == Sum(old(Value()), old(rhs.Value()))
    {
      var sum := Sum(Value(), rhs.Value());
      Store(sum);
    }

    /** `*= scalar`: every entry multiplied by scalar */
    method ScaleAssign(scalar: real)
      requires Valid()
      modifies matrix
      ensures Value() == ScaleBy(old(Value()), scalar)
    {
      var scaled := ScaleBy(Value(), scalar);
      Store(scaled);
    }

    /** `*= matrix`: the product is formed in a temporary `tk` and then copied in, so rhs may be
        this matrix itself and the result is still the product of the old values */
    method MulAssign(rhs: Matrix)
      requires Valid() && rhs.Valid()
      modifies matrix
      ensures Value() == Mul(old(Value()), old(rhs.Value()))
    {
      var tk := Mul(Value(), rhs.Value());
      Store(tk);
    }

    /** `rotate_ox(angle)`: multiplied on the right by the rotation about Ox */
    method RotateOx(angle: real, lib: Libm)
      requires Valid()
      modifies matrix
      ensures Value() == Mul(old(Value()), RotOx(lib.cos(angle), lib.sin(angle)))
    {
      var ca := lib.cos(angle);
      var sa := lib.sin(angle);
      var rotOX := new Matrix.FromValue(RotOx(ca, sa));
      MulAssign(rotOX);
    }

    /** `rotate_oy(angle)` */
    method RotateOy(angle: real, lib: Libm)
      requires Valid()
      modifies matrix
      ensures Value() == Mul(old(Value()), RotOy(lib.cos(angle), lib.sin(angle)))
    {
      var ca := lib.cos(angle);
      var sa := lib.sin(angle);
      var rotOY := new Matrix.FromValue(RotOy(ca, sa));
      MulAssign(rotOY);
    }

    /** `rotate_oz(angle)` */
    method RotateOz(angle: real, lib: Libm)
      requires Valid()
      modifies matrix
      ensures Value() == Mul(old(Value()), RotOz(lib.cos(angle), lib.sin(angle)))
    {
      var ca := lib.cos(angle);
      var sa := lib.sin(angle);
      var rotOZ := new Matrix.FromValue(RotOz(ca, sa));
      MulAssign(rotOZ);
    }

    /** `rotate_axis(angle, axis)` */
    method RotateAxis(angle: real, axis: Vec3, lib: Libm)
      requires Valid()
      modifies matrix
      ensures Value() == Mul(old(Value()), RotAxis(lib.cos(angle), lib.sin(angle), axis))
    {
      var ca := lib.cos(angle);
      var sa := lib.sin(angle);
      var rotAxis := new Matrix.FromValue(RotAxis(ca, sa, axis));
      MulAssign(rotAxis);
    }

    /** `translate(v)`: only row 3, columns 0-2 are written */
    method Translate(v: Vec3)
      requires Valid()
      modifies matrix
      ensures Value() == Translated(old(Value()), v)
    {
      var t := Translated(Value(), v);
      matrix[3, 0] := t.m30;
      matrix[3, 1] := t.m31;
      matrix[3, 2] := t.m32;
    }

    /** `translate(x, y, z)`: the same update, but the caller receives a copy of the matrix */
    method TranslateCopy(x: real, y: real, z: real) returns (copy: Mat4)
      requires Valid()
      modifies matrix
      ensures Value() == Translated(old(Value()), Vec3(x, y, z))
      ensures copy == Value()
    {
      Translate(Vec3(x, y, z));
      copy := Value();
    }

    /** `transform(vec)`: vec becomes the transformed point */
    method TransformVector(vec: Vector)
      requires Valid()
      modifies vec
      ensures vec.Value() == TransformPoint(Value(), old(vec.Value()))
    {
      var tvec := TransformPoint(Value(), vec.Value());
      vec.x := tvec.x;
      vec.y := tvec.y;
      vec.z := tvec.z;
    }

    /** `transform(x, y, z)`: the three coordinates transformed */
    method TransformCoords(x: real, y: real, z: real) returns (tx: real, ty: real, tz: real)
      requires Valid()
      ensures Vec3(tx, ty, tz) == TransformPoint(Value(), Vec3(x, y, z))
    {
      tx := matrix[0, 0] * x + matrix[0, 1] * y + matrix[0, 2] * z + matrix[0, 3];
      ty := matrix[1, 0] * x + matrix[1, 1] * y + matrix[1, 2] * z + matrix[1, 3];
      tz := matrix[2, 0] * x + matrix[2, 1] * y + matrix[2, 2] * z + matrix[2, 3];
    }

    /** `data_from_perspective`: prior holds what the four reference parameters held before the call */
    method DataFromPerspective(prior: PerspectiveParams, lib: Libm) returns (ok: bool, data: PerspectiveParams)
      requires Valid()
      ensures (ok, data) == PerspectiveDataOf(Value(), prior, lib)
    {
      data := prior;
      if matrix[1, 1] != 0.0 {
        data := data.(fovY := 2.0 * lib.atan(1.0 / matrix[1, 1]) * Constants.RadToDeg);
      } else {
        return false, data;
      }
      if matrix[0, 0] != 0.0 {
        data := data.(aspectRatio := matrix[1, 1] / matrix[0, 0]);
      } else {
        return false, data;
      }
      if matrix[2, 2] - 1.0 != 0.0 {
        data := data.(zNear := matrix[2, 3] / (matrix[2, 2] - 1.0));
      } else {
        return false, data;
      }
      if matrix[2, 2] + 1.0 != 0.0 {
        data := data.(zFar := matrix[2, 3] / (matrix[2, 2] + 1.0));
      } else {
        return false, data;
      }
      return true, data;
    }

    /** `operator ==`: bit k of `chf` records whether flat entry k is `equals` to its counterpart,
        and the matrices are equal when all 16 bits are set */
    method Equal(rhs: Matrix) returns (eq: bool)
      requires Valid() && rhs.Valid()
      ensures eq <==> EqualWithinTolerance(Value(), rhs.Value())
    {
      ghost var a, b := Value(), rhs.Value();
      ghost var matches := EntryMatches(a, b);
      var chf := 0;
      for i := 0 to 16
        invariant chf == MatchMask(matches, i) < Pow2(i)
      {
        FlatEntry(i);
        rhs.FlatEntry(i);
        MatchMaskBound(matches, i + 1);
        if Constants.Equals(matrix[i / 4, i % 4], rhs.matrix[i / 4, i % 4]) {
          // bit i of the mask is still clear, so or-ing in `1 << i` adds 2^i
          chf := chf + Pow2(i);
        }
      }
      MaskMeansEqual(a, b);
      eq := chf == 0xFFFF;
    }

    /** flat entry k of the value is the array entry at row k / 4, column k % 4 */
    lemma FlatEntry(k: nat)
      requires Valid() && k < 16
      ensures Flat(Value(), k) == matrix[k / 4, k % 4]
    {
      FlatIsAt(Value(), k);
    }

    /** `operator !=`: the negation of `==` */
    method NotEqual(rhs: Matrix) returns (ne: bool)
      requires Valid() && rhs.Valid()
      ensures ne <==> !EqualWithinTolerance(Value(), rhs.Value())
    {
      var eq := Equal(rhs);
      ne := !eq;
    }
  }
}
