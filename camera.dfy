/** The camera: its state (position, attitude in degrees, projection mode and the parameters of
    both projections) and the matrices it builds from that state with `matrix4` operations:
    the attitude (rotations about Oy, Ox and Oz), the view (attitude then `translate`) and the
    projection (perspective or ortho, by mode). */
module Camera {
  import opened Libm
  import opened Vector3
  import opened Matrix4
  import Constants

  /** `Camera::Mode`; ORTHO is 0 */
  datatype Mode = ORTHO | PERSPECTIVE

  /** `Camera::Perspective`: vertical angle (documented as degrees), aspect ratio, near and far
      plane distances */
  datatype PerspectiveData = PerspectiveData(verticalAngle: real, aspectRatio: real, nearPlane: real, farPlane: real)

  /** the member initialisers of `Camera::Perspective` */
  const DefaultPerspective: PerspectiveData := PerspectiveData(45.0, 4.0 / 3.0, 0.1, 1000.0)

  /** `Camera::Ortho`: the parallel viewing box */
  datatype OrthoData = OrthoData(left: real, right: real, bottom: real, top: real, zNear: real, zFar: real)

  /** the member initialisers of `Camera::Ortho` */
  const DefaultOrtho: OrthoData := OrthoData(-0.5, 0.5, -0.5, 0.5, -1000.0, 1000.0)

  // ---------------------------------------------------------------------------
  // The matrices, as values
  // ---------------------------------------------------------------------------

  /** the rotation `attitudeMatrix` builds from an attitude (h, p, r) in degrees: the identity
      rotated about Oy by h, then about Ox by -p, then about Oz by -r (angles in radians) */
  function Attitude(attitude: Vec3, lib: Libm): Mat4 {
    var h := Constants.DegToRad * attitude.x;
    var p := -Constants.DegToRad * attitude.y;
    var r := -Constants.DegToRad * attitude.z;
    Mul(Mul(Mul(Identity, RotOy(lib.cos(h), lib.sin(h))), RotOx(lib.cos(p), lib.sin(p))), RotOz(lib.cos(r), lib.sin(r)))
  }

  /** the view matrix: the attitude translated by the negated eye position */
  function View(position: Vec3, attitude: Vec3, lib: Libm): Mat4 {
    Translated(Attitude(attitude, lib), Neg(position))
  }

  /** a matrix whose row 3 and column 3 are those of the identity: it rotates or scales through
      its upper 3x3 block and neither translates nor projects */
  predicate IsLinear(m: Mat4) {
    && m.m03 == 0.0 && m.m13 == 0.0 && m.m23 == 0.0
    && m.m30 == 0.0 && m.m31 == 0.0 && m.m32 == 0.0 && m.m33 == 1.0
  }

  /** the row vector v times the upper 3x3 block of m */
  function RowTimesBlock(v: Vec3, m: Mat4): Vec3 {
    Vec3(
      v.x * m.m00 + v.y * m.m10 + v.z * m.m20,
      v.x * m.m01 + v.y * m.m11 + v.z * m.m21,
      v.x * m.m02 + v.y * m.m12 + v.z * m.m22)
  }

  /** the product of two linear matrices is linear */
  lemma LinearProduct(a: Mat4, b: Mat4)
    requires IsLinear(a) && IsLinear(b)
    ensures IsLinear(Mul(a, b))
  {
  }

  /** the attitude matrix is linear: it never translates */
  lemma AttitudeIsLinear(attitude: Vec3, lib: Libm)
    ensures IsLinear(Attitude(attitude, lib))
  {
    var h := Constants.DegToRad * attitude.x;
    var p := -Constants.DegToRad * attitude.y;
    var r := -Constants.DegToRad * attitude.z;
    var ry := RotOy(lib.cos(h), lib.sin(h));
    var rx := RotOx(lib.cos(p), lib.sin(p));
    var rz := RotOz(lib.cos(r), lib.sin(r));
    LinearProduct(Identity, ry);
    LinearProduct(Mul(Identity, ry), rx);
    LinearProduct(Mul(Mul(Identity, ry), rx), rz);
  }

  /** with a zero attitude (cos 0 = 1, sin 0 = 0) the attitude matrix is the identity */
  lemma AttitudeAtZero(lib: Libm)
    requires lib.TrigValid()
    ensures Attitude(Zero, lib) == Identity
  {
    assert Constants.DegToRad * 0.0 == 0.0 && -Constants.DegToRad * 0.0 == 0.0;
    RotationsAtZero(Zero);
    MulIdentity(Identity);
  }

  /** the view matrix agrees with the attitude matrix everywhere except row 3, columns 0-2, which
      hold the negated position times the rotation block */
  lemma ViewIsAttitudeThenTranslation(position: Vec3, attitude: Vec3, lib: Libm)
    ensures var v, a := View(position, attitude, lib), Attitude(attitude, lib);
      && (forall i, j | 0 <= i < 4 && 0 <= j < 4 && (i != 3 || j == 3) :: At(v, i, j) == At(a, i, j))
      && Vec3(v.m30, v.m31, v.m32) == RowTimesBlock(Neg(position), a)
  {
    var a := Attitude(attitude, lib);
    TranslatedFacts(a, Neg(position));
    AttitudeIsLinear(attitude, lib);
  }

  /** with zero attitude and zero position the view matrix is the identity */
  lemma ViewAtOrigin(lib: Libm)
    requires lib.TrigValid()
    ensures View(Zero, Zero, lib) == Identity
  {
    AttitudeAtZero(lib);
    assert Neg(Zero) == Zero;
    TranslatedFacts(Identity, Zero);
  }

  /** what the active projection needs to be defined over the reals: no zero divisor */
  predicate ProjectionDefined(mode: Mode, perspective: PerspectiveData, parallel: OrthoData, lib: Libm) {
    match mode
    case PERSPECTIVE =>
      lib.tan(0.5 * perspective.verticalAngle) != 0.0 && perspective.aspectRatio != 0.0
      && perspective.nearPlane != perspective.farPlane
    case ORTHO =>
      parallel.right != parallel.left && parallel.top != parallel.bottom && parallel.zFar != parallel.zNear
  }

  /** the projection matrix for a mode; the vertical angle is handed to `perspective` as it is
      stored, with no degree-to-radian conversion */
  function Projection(mode: Mode, perspective: PerspectiveData, parallel: OrthoData, lib: Libm): Mat4
    requires ProjectionDefined(mode, perspective, parallel, lib)
  {
    match mode
    case PERSPECTIVE =>
      Matrix4.Perspective(perspective.verticalAngle, perspective.aspectRatio, perspective.nearPlane, perspective.farPlane, lib)
    case ORTHO =>
      Ortho(parallel.left, parallel.right, parallel.bottom, parallel.top, parallel.zNear, parallel.zFar)
  }

  /** the perspective branch hands `tan` half the stored angle; for the 45 degrees the application
      sets, that half angle is 22.5, far outside the (0, pi/2) a half field of view in radians
      lies in */
  lemma ProjectionHalfAngleOutOfRange(lib: Libm)
    requires lib.tan(0.5 * DefaultPerspective.verticalAngle) != 0.0
    ensures var m := Projection(PERSPECTIVE, DefaultPerspective, DefaultOrtho, lib);
      m.m11 == 1.0 / lib.tan(22.5) && 22.5 > Constants.PiOver2
  {
  }

  /** the projection matrix with the vertical angle converted from degrees, as the field is
      documented */
  function ProjectionCorrected(mode: Mode, perspective: PerspectiveData, parallel: OrthoData, lib: Libm): Mat4
    requires ProjectionDefined(mode, perspective.(verticalAngle := Constants.DegToRad * perspective.verticalAngle), parallel, lib)
  {
    match mode
    case PERSPECTIVE =>
      Matrix4.Perspective(Constants.DegToRad * perspective.verticalAngle, perspective.aspectRatio, perspective.nearPlane, perspective.farPlane, lib)
    case ORTHO =>
      Ortho(parallel.left, parallel.right, parallel.bottom, parallel.top, parallel.zNear, parallel.zFar)
  }

  /** with the conversion, every vertical angle strictly between 0 and 180 degrees hands `tan`
      a half angle strictly between 0 and pi/2, so the vertical scale m11 is 1 / tan of a proper
      half field of view */
  lemma ProjectionCorrectedHalfAngle(perspective: PerspectiveData, parallel: OrthoData, lib: Libm)
    requires 0.0 < perspective.verticalAngle < 180.0
    requires ProjectionDefined(PERSPECTIVE, perspective.(verticalAngle := Constants.DegToRad * perspective.verticalAngle), parallel, lib)
    ensures var half := 0.5 * (Constants.DegToRad * perspective.verticalAngle);
      && 0.0 < half < Constants.PiOver2
      && ProjectionCorrected(PERSPECTIVE, perspective, parallel, lib).m11 == 1.0 / lib.tan(half)
  {
  }

  // ---------------------------------------------------------------------------
  // The camera object
  // ---------------------------------------------------------------------------

  /** `Camera`: the protected attributes the accessors hand out by reference */
  class Camera {
    var position: Vec3
    var attitude: Vec3
    var mode: Mode
    var perspectiveData: PerspectiveData
    var parallelData: OrthoData

    /** a new camera is at the origin with zero attitude, in ORTHO mode, with the default
        parameters of both projections */
    constructor ()
      ensures position == Zero && attitude == Zero && mode == ORTHO
      ensures perspectiveData == DefaultPerspective && parallelData == DefaultOrtho
    {
      position := Zero;
      attitude := Zero;
      mode := ORTHO;
      perspectiveData := DefaultPerspective;
      parallelData := DefaultOrtho;
    }

    /** `heading()`: the first attitude component */
    function Heading(): real
      reads this
    {
      attitude.x
    }

    /** `pitch()`: the second attitude component */
    function Pitch(): real
      reads this
    {
      attitude.y
    }

    /** `roll()`: the third attitude component */
    function Roll(): real
      reads this
    {
      attitude.z
    }

    /** writing through `heading()`: only the heading changes */
    method SetHeading(h: real)
      modifies this
      ensures attitude == old(attitude).(x := h) && Heading() == h
      ensures Pitch() == old(Pitch()) && Roll() == old(Roll())
      ensures position == old(position) && mode == old(mode)
      ensures perspectiveData == old(perspectiveData) && parallelData == old(parallelData)
    {
      attitude := attitude.(x := h);
    }

    /** writing through `pitch()`: only the pitch changes */
    method SetPitch(p: real)
      modifies this
      ensures attitude == old(attitude).(y := p) && Pitch() == p
      ensures Heading() == old(Heading()) && Roll() == old(Roll())
      ensures position == old(position) && mode == old(mode)
      ensures perspectiveData == old(perspectiveData) && parallelData == old(parallelData)
    {
      attitude := attitude.(y := p);
    }

    /** writing through `roll()`: only the roll changes */
    method SetRoll(r: real)
      modifies this
      ensures attitude == old(attitude).(z := r) && Roll() == r
      ensures Heading() == old(Heading()) && Pitch() == old(Pitch())
      ensures position == old(position) && mode == old(mode)
      ensures perspectiveData == old(perspectiveData) && parallelData == old(parallelData)
    {
      attitude := attitude.(z := r);
    }

    /** `transform()`: a default-constructed matrix, whatever the camera's state */
    method Transform() returns (m: Mat4)
      ensures m == Identity
    {
      var transform := new Matrix();
      m := transform.Value();
    }

    /** `projectionMatrix()`: perspective in PERSPECTIVE mode, ortho otherwise */
    method ProjectionMatrix(lib: Libm) returns (m: Mat4)
      requires ProjectionDefined(mode, perspectiveData, parallelData, lib)
      ensures m == Projection(mode, perspectiveData, parallelData, lib)
    {
      var projectionMatrix := new Matrix();
      match mode {
        case PERSPECTIVE =>
          projectionMatrix.Set(Matrix4.Perspective(perspectiveData.verticalAngle, perspectiveData.aspectRatio, perspectiveData.nearPlane, perspectiveData.farPlane, lib));
        case ORTHO =>
          projectionMatrix.Set(Ortho(parallelData.left, parallelData.right, parallelData.bottom, parallelData.top, parallelData.zNear, parallelData.zFar));
      }
      m := projectionMatrix.Value();
    }

    /** `attitudeMatrix()`: the identity rotated in place about Oy, Ox and Oz */
    method AttitudeMatrix(lib: Libm) returns (m: Mat4)
      ensures m == Attitude(attitude, lib)
    {
      var transform := new Matrix();
      transform.RotateOy(Constants.DegToRad * Heading(), lib);
      transform.RotateOx(-Constants.DegToRad * Pitch(), lib);
      transform.RotateOz(-Constants.DegToRad * Roll(), lib);
      m := transform.Value();
    }

    /** `viewMatrix()`: the attitude matrix translated in place by the negated position */
    method ViewMatrix(lib: Libm) returns (m: Mat4)
      ensures m == View(position, attitude, lib)
    {
      var attitudeValue := AttitudeMatrix(lib);
      var viewMatrix := new Matrix.FromValue(attitudeValue);
      viewMatrix.Translate(Neg(position));
      m := viewMatrix.Value();
    }
  }
}
