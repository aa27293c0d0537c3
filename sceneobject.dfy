/** A drawable scene object: its position, attitude (heading, pitch, roll in degrees) and colour,
    and the model matrix `transformMatrix` builds from them: the camera's attitude rotations
    followed by an in-place `translate` by the position. */
module SceneObject {
  import opened Libm
  import opened Vector3
  import opened Matrix4
  import Camera
  import Constants

  /** the model matrix of an object at `position` with `attitude`: the attitude matrix with the
      position written into row 3 by `translate` */
  function ModelMatrix(position: Vec3, attitude: Vec3, lib: Libm): Mat4 {
    Translated(Camera.Attitude(attitude, lib), position)
  }

  /** the model matrix keeps the attitude's rotation block and column 3 (0, 0, 0, 1); its row 3
      holds the position times the rotation block, followed by 1 */
  lemma ModelMatrixStructure(position: Vec3, attitude: Vec3, lib: Libm)
    ensures var m, a := ModelMatrix(position, attitude, lib), Camera.Attitude(attitude, lib);
      && (forall i, j | 0 <= i < 3 && 0 <= j < 3 :: At(m, i, j) == At(a, i, j))
      && m.m03 == 0.0 && m.m13 == 0.0 && m.m23 == 0.0 && m.m33 == 1.0
      && Vec3(m.m30, m.m31, m.m32) == Camera.RowTimesBlock(position, a)
  {
    var a := Camera.Attitude(attitude, lib);
    Camera.AttitudeIsLinear(attitude, lib);
    TranslatedFacts(a, position);
  }

  /** the model matrix is the translation by the position times the attitude matrix */
  lemma ModelMatrixIsProduct(position: Vec3, attitude: Vec3, lib: Libm)
    ensures ModelMatrix(position, attitude, lib) == Mul(TranslationMatrix(position), Camera.Attitude(attitude, lib))
  {
    Camera.AttitudeIsLinear(attitude, lib);
    TranslatedIsProduct(Camera.Attitude(attitude, lib), position);
  }

  /** an object with zero attitude is only translated: its model matrix is the translation matrix
      of its position */
  lemma ModelMatrixAtZeroAttitude(position: Vec3, lib: Libm)
    requires lib.TrigValid()
    ensures ModelMatrix(position, Zero, lib) == TranslationMatrix(position)
  {
    Camera.AttitudeAtZero(lib);
    TranslatedFacts(Identity, position);
  }

  /** moving the object changes only where it is, never how it is turned: two positions give the
      same rotation block and the same column 3 */
  lemma ModelMatrixRotationIndependentOfPosition(p: Vec3, q: Vec3, attitude: Vec3, lib: Libm)
    ensures var mp, mq := ModelMatrix(p, attitude, lib), ModelMatrix(q, attitude, lib);
      forall i, j | 0 <= i < 4 && 0 <= j < 4 && (i != 3 || j == 3) :: At(mp, i, j) == At(mq, i, j)
  {
    var a := Camera.Attitude(attitude, lib);
    TranslatedFacts(a, p);
    TranslatedFacts(a, q);
  }

  /** a translation followed by the opposite translation is no translation at all */
  lemma TranslationsCancel(v: Vec3)
    ensures Mul(TranslationMatrix(v), TranslationMatrix(Neg(v))) == Identity
  {
    var t, u := TranslationMatrix(v), TranslationMatrix(Neg(v));
    var product := Mul(t, u);
    // row 3 of the product is v times the identity block plus -v: zero
    assert product.m30 == RowTimesColumn(v.x, v.y, v.z, 1.0, 1.0, 0.0, 0.0, -v.x) == 0.0;
    assert product.m31 == RowTimesColumn(v.x, v.y, v.z, 1.0, 0.0, 1.0, 0.0, -v.y) == 0.0;
    assert product.m32 == RowTimesColumn(v.x, v.y, v.z, 1.0, 0.0, 0.0, 1.0, -v.z) == 0.0;
    assert product.m33 == RowTimesColumn(v.x, v.y, v.z, 1.0, 0.0, 0.0, 0.0, 1.0) == 1.0;
    EqualEntries(product, Identity);
  }

  /** a camera with zero attitude placed where an unrotated object stands undoes the object's
      placement: the model matrix times the camera's view matrix is the identity */
  lemma ViewUndoesPlacement(position: Vec3, lib: Libm)
    requires lib.TrigValid()
    ensures Mul(ModelMatrix(position, Zero, lib), Camera.View(position, Zero, lib)) == Identity
  {
    ModelMatrixAtZeroAttitude(position, lib);
    Camera.AttitudeAtZero(lib);
    TranslatedFacts(Identity, Neg(position));
    TranslationsCancel(position);
  }

  /** `SceneObject`: the protected attributes; the shader it draws with and `draw` are left out */
  class SceneObject {
    var position: Vec3
    var attitude: Vec3
    var color: Vec3

    /** the attributes are default-constructed vectors, that is zero */
    constructor ()
      ensures position == Zero && attitude == Zero && color == Zero
    {
      position := Zero;
      attitude := Zero;
      color := Zero;
    }

    /** `transformMatrix()`: the identity rotated in place about Oy by the heading, about Ox by the
        negated pitch and about Oz by the negated roll, then translated by the position */
    method TransformMatrix(lib: Libm) returns (m: Mat4)
      ensures m == ModelMatrix(position, attitude, lib)
    {
      var transform := new Matrix();
      transform.RotateOy(Constants.DegToRad * attitude.x, lib);
      transform.RotateOx(-Constants.DegToRad * attitude.y, lib);
      transform.RotateOz(-Constants.DegToRad * attitude.z, lib);
      transform.Translate(position);
      m := transform.Value();
    }
  }
}
