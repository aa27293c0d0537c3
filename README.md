# DeferredRendering core, modelled in Dafny

This project models the computational core of a small OpenGL deferred renderer. It covers:

- the linear algebra it is built on (`vector3`, `matrix4`) and the numeric helpers in `constants`;
- the camera, which holds a position, an attitude in degrees and a projection mode, and builds
  attitude, view and projection matrices from them;
- the model matrix of a scene object;
- the keyboard motion model that moves and turns the eye each frame;
- the projector's 64 x 64 checkerboard texture;
- the `%`-substituting debug-log formatter;
- the uniform-location cache, program switching and program-ownership transfer of `Shader`.

Value operations are functions on datatypes (`Vec3`, `Mat4`). The source's objects that update
their own fields are classes, and their methods are proved against those functions. This covers
`vector3`, `matrix4`, the camera, the scene object, the motion model, the text stream and the
shader. The checkerboard is written in place into a three-dimensional array, as in the source.

Scalars are mathematical reals. The C math functions (`sqrt`, `sin`, `cos`, `tan`, `atan`) are
fields of a `Libm` value. Lemmas that need them assume only the algebraic facts stated by
`Libm.SqrtValid` and `Libm.TrigValid`.

Where the source's comments and its code disagree, the model follows the code:
`Camera::Perspective::verticalAngle` is documented as degrees, but the code passes it to `tan`
unconverted (see Findings).

## Model

| member | source | states |
|---|---|---|
| Constants.WordsPartitionTheWord | src/utils/constants.h:52-55 | WORD0..WORD3 are the four byte masks 0xFF, 0xFF00, 0xFF0000, 0xFF000000: pairwise disjoint and together all 32 bits |
| Constants.IntervalsNest | src/utils/constants.h:102-182 | each interval test holds exactly for its interval (closed, half-open, open); open-both implies the half-open ones, which imply closed-both |
| Constants.EqualsIsStrictBand | src/utils/constants.h:193-197 | `equals` holds iff -eps < lhs - rhs < eps; it is symmetric, reflexive for positive eps, and false at a distance of exactly eps |
| Constants.ClampToInterval | src/utils/constants.h:206-210 | for left <= right the result lies in [left, right], is the value itself inside, and the nearer bound outside; for left > right it is left |
| Constants.UnitConversionsAreReciprocal | src/utils/constants.cpp:3-18 | s_to_ms is 1000 and the inverse of ms_to_s; ns_to_ms inverts ms_to_ns; mps_to_kmph * kmph_to_mps is not exactly 1 but is `equals` to 1; deg_to_rad * rad_to_deg is `equals` to 1; pi/6 < pi/4 < pi/2 < pi < 2pi |
| Constants.Fmod | src/utils/constants.cpp:23 | C `fmod`: the remainder has the sign of the dividend, is smaller than the period in magnitude, and differs from the dividend by a whole number of periods |
| Constants.WrapAngleRangeAndCongruence | src/utils/constants.cpp:20-39 | the wrapped angle lies in [0, period) and differs from the input by a whole number of periods |
| Constants.WrapAngleFixesRange | src/utils/constants.cpp:20-39 | an angle already in [0, period) is returned unchanged, and wrapping twice is wrapping once |
| Constants.Angle0To2Pi | src/utils/constants.cpp:20-29 | over the reals, the result is in [0, 2pi), congruent to the input modulo 2pi, and the input itself when the input is already in range |
| Constants.Angle0To360 | src/utils/constants.cpp:31-39 | over the reals, the result is in [0, 360), congruent to the input modulo 360, and the input itself when the input is already in range |
| Constants.AngleWrapsIdempotent | src/utils/constants.cpp:20-39 | both wraps are idempotent |
| Vector3.LengthSquaredSign | src/linearAlgebra/vector3.h:288-291 | the sum of squares under `get_length` is non-negative, and zero exactly for the zero vector |
| Vector3.LengthFacts | src/linearAlgebra/vector3.h:288-291 | `get_length` is non-negative, its square is x^2 + y^2 + z^2, and it is positive exactly off the zero vector |
| Vector3.CrossOrthogonal | src/linearAlgebra/vector3.h:204-209 | `a ^ b` is orthogonal to a and b, `a ^ a` is zero, and `b ^ a` is `-(a ^ b)` |
| Vector3.LagrangeIdentity | src/linearAlgebra/vector3.h:193-209 | the squared lengths multiply to the squared dot product plus the squared length of the cross product |
| Vector3.ProjectionResidualOrthogonal | src/linearAlgebra/vector3.h:241-257 | `u & v` is zero when v is zero, and `u - (u & v)` is orthogonal to v for every v |
| Vector3.ProjectionAlong | src/linearAlgebra/vector3.h:241-257 | along a v of positive length, the projection has the same dot product with v as u |
| Vector3.ProjectionIdempotent | src/linearAlgebra/vector3.h:241-257 | projecting the projection again along v gives it back |
| Vector3.NormalizedHasUnitLength | src/linearAlgebra/vector3.h:298-309 | member `normalize` leaves the zero vector alone and gives every other vector length 1 |
| Vector3.NormalizeStaticAgrees | src/linearAlgebra/vector3.h:403-407 | for a non-zero input the static `normalize` is defined, agrees with the member one and has length 1 |
| Vector3.DirectionCosinesAreNormalized | src/linearAlgebra/vector3.h:318-331 | the direction cosines are (0, 0, 0) for the zero vector and otherwise the normalised vector, whose squares sum to 1 |
| Vector3.AngleFallbacks | src/linearAlgebra/vector3.h:354-382 | when either vector is zero the cosine query returns 0 and the sine query returns 1 |
| Vector3.AngleCosSinPythagorean | src/linearAlgebra/vector3.h:354-382 | for two non-zero vectors the returned cosine and sine satisfy cos^2 + sin^2 = 1 |
| Vector3.ProjectedToPlaneOrthogonal | src/linearAlgebra/vector3.h:391-395 | `project_to_plane(pn)` yields a vector orthogonal to pn and to `v ^ pn` |
| Vector3.ApproxEqualMeaning | src/linearAlgebra/vector3.h:435-452 | `==` holds iff no component of a exceeds b's by more than 1e-3 and at least one is not below b's by more than 1e-3 |
| Vector3.ApproxEqualAsymmetric | src/linearAlgebra/vector3.h:444-446 | `(0,0,0) == (5,0,0)` holds while `(5,0,0) == (0,0,0)` does not |
| Vector3.ApproxEqualCorrectedIsComponentwise | src/linearAlgebra/vector3.h:435-452 | the corrected comparison holds iff every component is within 1e-3; it is symmetric, reflexive, and implies the as-written `==` both ways |
| Vector3.Vector.constructor | src/linearAlgebra/vector3.h:27-32 | the default vector is zero |
| Vector3.Vector.FromComponents | src/linearAlgebra/vector3.h:51-56 | the vector holds the given components |
| Vector3.Vector.Set | src/linearAlgebra/vector3.h:64-69 | `set` replaces all three components |
| Vector3.Vector.AddAssign | src/linearAlgebra/vector3.h:102-108 | `+=` leaves the sum of the old values, also when rhs is the vector itself |
| Vector3.Vector.SubAssign | src/linearAlgebra/vector3.h:126-132 | `-=` leaves the difference of the old values, also when rhs is the vector itself |
| Vector3.Vector.Negate | src/linearAlgebra/vector3.h:153-160 | `negate` leaves the negated old value |
| Vector3.Vector.ScaleAssign | src/linearAlgebra/vector3.h:179-185 | `*= sc` leaves the old value scaled by sc |
| Vector3.Vector.CrossAssign | src/linearAlgebra/vector3.h:217-232 | `^=` leaves the cross product of the old values (through temporaries), so `v ^= v` gives zero |
| Vector3.Vector.ProjectAssign | src/linearAlgebra/vector3.h:265-281 | `&=` leaves the projection of the old value along rhs, zero for a zero-length rhs |
| Vector3.Vector.Normalize | src/linearAlgebra/vector3.h:298-309 | member `normalize` leaves the normalised old value |
| Vector3.Vector.ProjectToPlane | src/linearAlgebra/vector3.h:391-395 | `project_to_plane` leaves `pn ^ (v ^ pn)` of the old values, also when pn is the vector itself |
| Matrix4.IdentityEntries | src/linearAlgebra/matrix4.h:39-45 | the identity has ones on the diagonal and zeros elsewhere |
| Matrix4.MulIdentity | src/linearAlgebra/matrix4.h:246-269 | the identity is neutral for the product on both sides |
| Matrix4.DeterminantIsFirstRowTimesAdjugate | src/linearAlgebra/matrix4.h:356-362 | the determinant is row 0 times column 0 of the adjugate |
| Matrix4.DeterminantExpanded | src/linearAlgebra/matrix4.h:316-362 | the minor-based determinant is the full 24-term Leibniz expansion |
| Matrix4.AdjugateTimesMatrix | src/linearAlgebra/matrix4.h:327-350 | adjugate(m) * m == determinant(m) * identity |
| Matrix4.MatrixTimesAdjugate | src/linearAlgebra/matrix4.h:327-350 | m * adjugate(m) == determinant(m) * identity |
| Matrix4.InverseIsTwoSided | src/linearAlgebra/matrix4.h:368-371 | for a non-zero determinant, `inverse()` times m and m times `inverse()` are both the identity |
| Matrix4.TransposeInvolutionAndTrace | src/linearAlgebra/matrix4.h:377-394 | transposing twice gives the matrix back, and transposing keeps the trace |
| Matrix4.TransposeOfProduct | src/linearAlgebra/matrix4.h:377-385 | the transpose of a product is the product of the transposes in reverse order |
| Matrix4.RotationsAtZero | src/linearAlgebra/matrix4.h:402-478 | at angle zero every rotation matrix, about Ox, Oy, Oz or any axis, is the identity |
| Matrix4.AxisRotationsOrthonormal | src/linearAlgebra/matrix4.h:402-456 | with cos^2 + sin^2 = 1 each axis rotation times its transpose is the identity |
| Matrix4.AxisRotationsCompose | src/linearAlgebra/matrix4.h:402-456 | two rotations about the same axis compose into the rotation by the summed angle |
| Matrix4.RotAxisAboutCoordinateAxes | src/linearAlgebra/matrix4.h:402-478 | about a coordinate axis `rotate_axis` agrees with `rotate_oz` but turns opposite to `rotate_ox` and `rotate_oy` |
| Matrix4.TranslatedFacts | src/linearAlgebra/matrix4.h:485-492 | translating the identity gives the translation matrix, translating by zero changes nothing, and only m30, m31, m32 can change |
| Matrix4.TranslationsCompose | src/linearAlgebra/matrix4.h:485-492 | translating by u and then by v is translating by u + v |
| Matrix4.TranslatedIsProduct | src/linearAlgebra/matrix4.h:485-492 | on an affine matrix `translate(v)` is multiplication on the left by the translation matrix of v |
| Matrix4.TransformIgnoresRow3 | src/linearAlgebra/matrix4.h:514-530 | `transform` never reads row 3, so a translated matrix moves points as the untranslated one does |
| Matrix4.TransformIdentityAndOffset | src/linearAlgebra/matrix4.h:514-530 | the identity leaves points in place, and column 3 is the offset added to every point |
| Matrix4.PerspectiveMapsFrustumDepth | src/linearAlgebra/matrix4.h:566-576 | the perspective matrix sends the near plane to clip depth -w and the far plane to +w, and m11 / m00 is the aspect ratio |
| Matrix4.OrthoMapsBoxToCube | src/linearAlgebra/matrix4.h:637-650 | `ortho` maps each bound of the viewing box to -1 or 1 |
| Matrix4.PerspectiveDataFailure | src/linearAlgebra/matrix4.h:589-624 | `data_from_perspective` fails exactly on a zero divisor. fovY is written once m11 is non-zero, the aspect ratio once m00 is too, and zNear (m23 / -2) when m22 is -1. Every output after the failing check keeps the caller's value |
| Matrix4.PerspectiveDataAsWritten | src/linearAlgebra/matrix4.h:589-624 | on a perspective matrix the call succeeds and returns the aspect ratio, but near and far come out as (f - n) / 2f and (f - n) / 2n |
| Matrix4.PerspectiveDataNearFarCounterexample | src/linearAlgebra/matrix4.h:605-622 | for near 1 and far 3 the call as written reports near 1/3 and far 1; the corrected reading reports 1 and 3 |
| Matrix4.PerspectiveDataRoundTrip | src/linearAlgebra/matrix4.h:605-622 | reading near and far from m32 inverts `perspective`: aspect ratio, near and far all come back |
| Matrix4.MatchMaskBound | src/linearAlgebra/matrix4.h:674-683 | after n comparisons the `chf` mask is below 2^n, so or-ing bit n adds 2^n; it is 2^n - 1 exactly when all n entries matched |
| Matrix4.MaskMeansEqual | src/linearAlgebra/matrix4.h:674-683 | the mask of all 16 comparisons is 0xFFFF exactly when every entry is `equals` to its counterpart |
| Matrix4.EqualWithinToleranceReflexiveSymmetric | src/linearAlgebra/matrix4.h:674-683 | matrix `==` is reflexive and symmetric |
| Matrix4.Matrix.constructor | src/linearAlgebra/matrix4.h:39-45 | a default-constructed matrix is the identity |
| Matrix4.Matrix.FromValue | src/linearAlgebra/matrix4.h:75-84 | the constructor from entries holds exactly those entries |
| Matrix4.Matrix.Set | src/linearAlgebra/matrix4.h:114-123 | `set` replaces all 16 entries |
| Matrix4.Matrix.GetCoefficient | src/linearAlgebra/matrix4.h:154-157 | `get_coefficient(i, j)` is entry (i, j) |
| Matrix4.Matrix.SetCoefficient | src/linearAlgebra/matrix4.h:166-170 | `set_coefficient(i, j, val)` changes entry (i, j) to val and no other entry |
| Matrix4.Matrix.Assign | src/linearAlgebra/matrix4.h:177-181 | `=` copies rhs's entries, also when rhs is the matrix itself |
| Matrix4.Matrix.AddAssign | src/linearAlgebra/matrix4.h:203-211 | `+=` leaves the entrywise sum of the old values |
| Matrix4.Matrix.ScaleAssign | src/linearAlgebra/matrix4.h:231-239 | `*= scalar` leaves every old entry multiplied by the scalar |
| Matrix4.Matrix.MulAssign | src/linearAlgebra/matrix4.h:276-301 | `*= matrix` leaves the product of the old values, also when rhs is the matrix itself |
| Matrix4.Matrix.RotateOx | src/linearAlgebra/matrix4.h:402-416 | `rotate_ox` multiplies on the right by the rotation about Ox |
| Matrix4.Matrix.RotateOy | src/linearAlgebra/matrix4.h:423-436 | `rotate_oy` multiplies on the right by the rotation about Oy |
| Matrix4.Matrix.RotateOz | src/linearAlgebra/matrix4.h:443-456 | `rotate_oz` multiplies on the right by the rotation about Oz |
| Matrix4.Matrix.RotateAxis | src/linearAlgebra/matrix4.h:464-478 | `rotate_axis` multiplies on the right by the rotation about the axis |
| Matrix4.Matrix.Translate | src/linearAlgebra/matrix4.h:485-492 | `translate(v)` leaves the translated old value |
| Matrix4.Matrix.TranslateCopy | src/linearAlgebra/matrix4.h:501-508 | `translate(x, y, z)` updates the matrix the same way and returns a copy of the new value |
| Matrix4.Matrix.TransformVector | src/linearAlgebra/matrix4.h:514-530 | `transform(vec)` replaces vec by the transformed point |
| Matrix4.Matrix.TransformCoords | src/linearAlgebra/matrix4.h:539-555 | `transform(x, y, z)` returns the transformed point |
| Matrix4.Matrix.DataFromPerspective | src/linearAlgebra/matrix4.h:589-624 | the method returns what `PerspectiveDataOf` of the matrix gives, including the partial writes on failure |
| Matrix4.Matrix.Equal | src/linearAlgebra/matrix4.h:674-683 | the `chf` loop returns true iff every entry is `equals` to its counterpart |
| Matrix4.Matrix.NotEqual | src/linearAlgebra/matrix4.h:692-695 | `!=` is the negation of `==` |
| Camera.AttitudeIsLinear | src/opengl/camera.cpp:34-42 | the attitude matrix never translates or projects: row 3 and column 3 are those of the identity |
| Camera.AttitudeAtZero | src/opengl/camera.cpp:34-42 | a zero attitude gives the identity |
| Camera.ViewIsAttitudeThenTranslation | src/opengl/camera.cpp:25-32 | the view matrix agrees with the attitude matrix except in row 3, which holds the negated position times the rotation block |
| Camera.ViewAtOrigin | src/opengl/camera.cpp:25-32 | at the origin with zero attitude the view matrix is the identity |
| Camera.ProjectionHalfAngleOutOfRange | src/opengl/camera.cpp:14-16 | with the default 45, `tan` is handed 22.5, which exceeds pi/2 |
| Camera.ProjectionCorrectedHalfAngle | src/opengl/camera.cpp:14-16 | with degrees converted, every angle in (0, 180) hands `tan` a half angle in (0, pi/2) |
| Camera.Camera.constructor | src/opengl/camera.h:67-71 | a new camera is at the origin with zero attitude, in ORTHO mode, with the member-initialised projection parameters |
| Camera.Camera.SetHeading | src/opengl/camera.h:44-47 | writing through `heading()` changes the heading and nothing else |
| Camera.Camera.SetPitch | src/opengl/camera.h:53-56 | writing through `pitch()` changes the pitch and nothing else |
| Camera.Camera.SetRoll | src/opengl/camera.h:62-65 | writing through `roll()` changes the roll and nothing else |
| Camera.Camera.Transform | src/opengl/camera.cpp:4-7 | `transform()` is the identity whatever the camera's state |
| Camera.Camera.ProjectionMatrix | src/opengl/camera.cpp:9-23 | the perspective matrix in PERSPECTIVE mode and the ortho matrix otherwise |
| Camera.Camera.AttitudeMatrix | src/opengl/camera.cpp:34-42 | the in-place rotations about Oy, Ox and Oz give `Attitude` of the camera's attitude |
| Camera.Camera.ViewMatrix | src/opengl/camera.cpp:25-32 | the attitude matrix translated in place by the negated position gives `View` |
| SceneObject.ModelMatrixStructure | src/opengl/sceneobject.cpp:3-13 | the model matrix keeps the attitude's rotation block and column 3 (0, 0, 0, 1); row 3 holds the position times the rotation block |
| SceneObject.ModelMatrixIsProduct | src/opengl/sceneobject.cpp:3-13 | the model matrix is the translation matrix of the position times the attitude matrix |
| SceneObject.ModelMatrixAtZeroAttitude | src/opengl/sceneobject.cpp:3-13 | with zero attitude the model matrix is the translation matrix of the position |
| SceneObject.ModelMatrixRotationIndependentOfPosition | src/opengl/sceneobject.cpp:3-13 | two positions with the same attitude give the same rotation block and column 3 |
| SceneObject.TranslationsCancel | src/linearAlgebra/matrix4.h:485-492 | the translation by v times the translation by -v is the identity |
| SceneObject.ViewUndoesPlacement | src/opengl/sceneobject.cpp:3-13 | an unrotated object's model matrix times the view matrix of an unrotated camera at its position is the identity |
| SceneObject.SceneObject.constructor | src/opengl/sceneobject.h:11-13 | the position, attitude and colour start at zero |
| SceneObject.SceneObject.TransformMatrix | src/opengl/sceneobject.cpp:3-13 | the in-place rotations and `translate` give `ModelMatrix` of the object's position and attitude |
| MotionModel.Held | src/motionModel/motionModel.cpp:21 | 1 when the key is held and 0 otherwise |
| MotionModel.WorldStepLinear | src/motionModel/motionModel.cpp:25-28 | carrying eye-space steps through an attitude matrix is additive, commutes with negation, and sends zero to zero |
| MotionModel.MovedByIsSum | src/motionModel/motionModel.cpp:21-59 | the four guarded moves add up to the frame applied to the sum of the held keys' steps, in any order |
| MotionModel.MovedIsNetStep | src/motionModel/motionModel.cpp:21-59 | the eye moves by the frame applied to the net step: -z for UP, +z for DOWN, +y for NUMPAD9, -y for NUMPAD3 |
| MotionModel.TurnedIsNetTurn | src/motionModel/motionModel.cpp:61-84 | each turning pair changes only its own component, by deltaAtt per key held, with the signs of the source |
| MotionModel.OppositeKeysCancel | src/motionModel/motionModel.cpp:19-86 | with both or neither key of every opposite pair held, the eye neither moves nor turns |
| MotionModel.MovedAtZeroAttitude | src/motionModel/motionModel.cpp:21-59 | with a zero attitude the eye moves along the world axes by the net step |
| MotionModel.StepIgnoresDeltaPos | src/motionModel/motionModel.cpp:21-29 | with only UP held, an unturned eye moves one whole unit along -z; `deltaPos` plays no part |
| MotionModel.MovedIsScaledStep | src/motionModel/motionModel.cpp:21-59 | with steps scaled by deltaPos the eye moves by deltaPos times the net step; deltaPos 1 is the movement as written |
| MotionModel.MovedCorrectedZeroStep | src/motionModel/motionModel.cpp:21-59 | with steps scaled, deltaPos 0 keeps the eye still whatever keys are held |
| MotionModel.MovedCorrectedForward | src/motionModel/motionModel.cpp:21-29 | with steps scaled and only UP held, the eye moves by the frame applied to (0, 0, -deltaPos) |
| MotionModel.MovedCorrectedStepLength | src/motionModel/motionModel.cpp:21-29 | with steps scaled and only UP held, an unturned eye moves exactly deltaPos along -z |
| MotionModel.AttitudeMatrixOf | src/motionModel/motionModel.cpp:8-16 | the file-local helper builds a fresh matrix equal to the camera's `Attitude` of the given attitude |
| MotionModel.MotionModel.constructor | src/motionModel/motionModel.h:7-10 | the eye starts at the origin with zero attitude and the given step sizes |
| MotionModel.MotionModel.MoveIfHeld | src/motionModel/motionModel.cpp:21-59 | one guarded block: when the key is held, the position moves by the step carried through the current attitude matrix; nothing else changes |
| MotionModel.MotionModel.ComputeMotion | src/motionModel/motionModel.cpp:19-86 | the new position is `Moved` of the old one under the old attitude, the new attitude is `Turned`, and the step sizes are unchanged |
| Projector.Bit3IsMask | src/opengl/projector.cpp:15 | for indices below 256, `(n / 8) % 2 == 1` is `n & 0x8 != 0` |
| Projector.CheckValue | src/opengl/projector.cpp:15 | the checker value is 255 or 0, and 255 exactly when bit 3 of i and bit 3 of j differ |
| Projector.CheckSymmetric | src/opengl/projector.cpp:15 | the checkerboard is symmetric in i and j |
| Projector.Bit3Shift | src/opengl/projector.cpp:15 | adding 8 to an index toggles bit 3; adding 16 keeps it |
| Projector.CheckShift | src/opengl/projector.cpp:15 | shifting either index by 8 turns c into 255 - c; shifting by 16 keeps c |
| Projector.NewCheckImage | src/opengl/projector.cpp:7 | the image starts as 64 x 64 x 4 zero bytes |
| Projector.MakeCheckImage | src/opengl/projector.cpp:9-22 | every texel ends with the checker value in red, blue and alpha and 0 in green, whatever the array held before |
| DebugOut.CString | src/utils/debugout.h:9 | `<<` of a `const char*` writes the prefix before the first NUL, with no NUL in it |
| DebugOut.CStringWithoutNul | src/utils/debugout.h:9 | a string without NUL is written whole |
| DebugOut.Split | src/utils/debugout.h:15-24 | the reference pieces between `%` signs number one more than the `%` signs |
| DebugOut.SplitJoin | src/utils/debugout.h:15-24 | joining the pieces with `%` gives the format back |
| DebugOut.NoArgumentsVerbatim | src/utils/debugout.h:7-10 | with no argument left, the NUL-free format is written verbatim, `%` included, followed by a newline |
| DebugOut.FirstPercentReplaced | src/utils/debugout.h:15-24 | with arguments left, the text before the first `%` is copied, the `%` becomes the first argument, and the rest goes with the remaining arguments |
| DebugOut.SurplusArgumentsDropped | src/utils/debugout.h:15-24 | a format with no `%` and arguments left is copied, and neither the arguments nor a newline are written |
| DebugOut.LogIsInterleave | src/utils/debugout.h:7-24 | with k `%` signs and at least k arguments, the output is the pieces interleaved with the first k arguments, plus a newline exactly when k equals the number of arguments |
| DebugOut.ExactArguments | src/utils/debugout.h:7-24 | with exactly k `%` signs and k arguments, the i-th `%` becomes the i-th argument and a newline follows |
| DebugOut.LogCopiesPlain | src/utils/debugout.h:23 | a plain character is copied and the rest of the format follows |
| DebugOut.LogReplacesPercent | src/utils/debugout.h:17-21 | at a `%` the first argument is written and the rest of the format goes with the remaining arguments |
| DebugOut.TextStream.Append | src/utils/debugout.h:9 | `<<` appends the text to the stream |
| DebugOut.DebugLogiBase | src/utils/debugout.h:7-10 | the base overload appends `Log(format, [])`: the C string and a newline |
| DebugOut.DebugLogi | src/utils/debugout.h:12-25 | the copy loop and the recursive call together append `Log(format, [value] + fargs)` |
| DebugOut.DebugLogiNext | src/utils/debugout.h:20 | the recursive call appends `Log` of the rest of the format with the remaining arguments, whichever overload it resolves to |
| Shaders.Resolve | src/opengl/shaders.h:49-60 | on a hit, the cached location and the unchanged cache; on a miss, the queried location, cached under exactly that name even when it is -1, with every other entry unchanged |
| Shaders.CacheIsTransparent | src/opengl/shaders.h:49-60 | while every cached location matches what the program reports, `set` uses the location a fresh query would give, and the cache keeps matching |
| Shaders.ResolveTwiceHits | src/opengl/shaders.h:49-60 | looking the same name up a second time hits, with the same location and an unchanged cache |
| Shaders.AttachCalls | src/opengl/shaders.h:17-25 | `attach` makes no `glUseProgram` call when the program is already current, and otherwise one call with its own program |
| Shaders.AttachTwiceSwitchesOnce | src/opengl/shaders.h:17-25 | two consecutive `attach` calls switch programs at most once |
| Shaders.Context.UseProgram | src/opengl/shaders.h:23 | `glUseProgram` makes the program current and is recorded |
| Shaders.Context.GetUniformLocation | src/opengl/shaders.h:54 | the location query returns the program's answer and is recorded |
| Shaders.Context.Upload | src/opengl/shaders.h:62 | the uploading call receives the location |
| Shaders.Shader.constructor | src/opengl/shaders.h:32-36 | a default shader has program 0 and an empty cache |
| Shaders.Shader.FromProgram | src/opengl/shaders.h:66-70 | the shader holds the given program and uniform locations |
| Shaders.Shader.Attach | src/opengl/shaders.h:17-25 | afterwards the shader's program is current, and `glUseProgram` was called only if it was not current already |
| Shaders.Shader.Set | src/opengl/shaders.h:47-64 | `set` attaches, updates the cache as `Resolve` says, queries the driver only on a miss, and uploads to the resolved location |
| Shaders.Shader.Assign | src/opengl/shaders.h:38-44 | for a distinct rhs, this takes rhs's program and uniforms and rhs's program becomes 0; for self-assignment the program becomes 0 |
| Shaders.Shader.AssignChecked | src/opengl/shaders.h:38-44 | the assigned shader always ends with rhs's old program and uniforms, and a distinct rhs gives its program up |
| Shaders.Detach | src/opengl/shaders.h:27-30 | `detach` makes program 0 current |
| Shaders.SelfAssignmentLosesProgram | src/opengl/shaders.h:38-44 | a shader owning program 5 assigned to itself owns program 0 as written and keeps 5 with the checked assignment |

## Left out

- Floating-point rounding: scalars are reals, so `float` and `double` rounding, overflow and NaN are not modelled. Literals such as `0.1f` are their decimal values.
- Constants.Angle0To360, Constants.Angle0To2Pi: the half-open range [0, 360) or [0, 2pi) holds over the reals only. In `double`, a tiny negative angle such as -1e-20 has `fmod` -1e-20, and adding the period rounds to exactly 360 (or 2pi). So the code can return the upper end of the closed interval it documents; the model has no rounding and does not show this.
- The C math functions are not computed. `sqrt`, `sin`, `cos`, `tan` and `atan` are fields of `Libm`, and only the facts in `Libm.SqrtValid` and `Libm.TrigValid` are assumed where a lemma needs them. `acos` and `atan2` appear only in `get_direction_angles` and `compute_angular_difference`, which are thin trig wrappers and are not modelled.
- Vector3.NormalizeStatic and the divisions in `perspective`, `ortho`, `inverse` and `data_from_perspective`: a real division by zero has no value, so these functions require a non-zero divisor where the source would produce infinities or NaN.
- Matrix4.Matrix.Equal: the `unsigned short chf` mask is modelled as a natural number with a proved bound below 2^16, instead of as a 16-bit word.
- Projector.Bit3IsMask: `i & 0x8` is modelled as `(i / 8) % 2 == 1` on non-negative indices; the lemma ties the two together for indices below 256.
- Matrix4.RotAxis: Rodrigues' formula is modelled as written (the axis is not normalised); that it is orthonormal for a unit axis is not proved.
- Compound operators (`+=`, `*=` and the others) compute the new value and then store it. Aliasing is handled where the source allows it: rhs may be the object itself.
- The raw-array and cast operators (`get_openglmatrix`, `operator const type*`, `operator vector3<other>`, `operator matrix4<other>`) and the storage unions are memory layout, not behaviour.
- Camera.Mode: the enum class has only ORTHO and PERSPECTIVE, so the `default:` branch of `projectionMatrix` coincides with ORTHO.
- MotionModel.MotionModel.ComputeMotion: `GetAsyncKeyState` polling is replaced by one set of held keys per frame, so a key cannot change state between two polls within one frame.
- MotionModel.MotionModel.constructor: `deltaPos` and `deltaAtt` have no initialiser in the source, so they are constructor parameters.
- DebugOut.DebugLogi: arguments are taken as the strings `operator<<` renders them as, so the formatting of numbers is not modelled. `debugLog` and `OutputDebugStringA` (debugger I/O) are not modelled.
- Shaders: GL calls are modelled as a `Context` that records `glUseProgram` calls, location queries and uploads. `glGetUniformLocation` is a function of program and name. The uniform values passed to the uploading function and `OPENGL_CHECK_ERROR` are not modelled.
- Shaders.Shader.FromProgram: the source moves the caller's map, leaving it empty. The model takes the map by value, so the emptied caller map is not modelled.
- Shaders.Shader.Assign: the self-move of the uniform map is modelled as leaving the map unchanged.
- src/opengl/shaders.cpp (reading, compiling and linking programs, and the destructor's `glDeleteProgram`) is not part of this model. The same goes for the scene object's `draw` and the shader it holds, the projector's texture upload and drawing, the deferred renderer, the vertex buffers, the meshes and the application loop. All of these are OpenGL and window I/O.

## Findings

| source | as written | input that shows it | evidently intended | confidence | as-written member | corrected member |
|---|---|---|---|---|---|---|
| src/linearAlgebra/matrix4.h:605-622 | `data_from_perspective` reads zNear and zFar from `matrix[2][3]`, which `perspective` sets to -1 | `perspective(fovY, 1, 1, 3)` reports zNear 1/3 and zFar 1 | read `matrix[3][2]`, where `perspective` stores 2 zFar zNear / (zNear - zFar), so that near and far come back | high (not executed) | Matrix4.PerspectiveDataNearFarCounterexample | Matrix4.PerspectiveDataRoundTrip |
| src/linearAlgebra/vector3.h:444-446 | `==` compares only the largest signed component difference with the tolerance | `(0,0,0) == (5,0,0)` is true while `(5,0,0) == (0,0,0)` is false | every component's absolute difference within the tolerance, which is symmetric | high (not executed) | Vector3.ApproxEqualAsymmetric | Vector3.ApproxEqualCorrectedIsComponentwise |
| src/opengl/camera.cpp:14-16 | the vertical angle, documented in degrees (45 by default), is passed to `perspective`, which halves it and hands it to `tan` unconverted | the default 45 gives `tan(22.5)`, an angle far outside (0, pi/2) | convert with `deg_to_rad` first, as `attitudeMatrix` does | medium (not executed) | Camera.ProjectionHalfAngleOutOfRange | Camera.ProjectionCorrectedHalfAngle |
| src/motionModel/motionModel.cpp:21-59 | every movement step has unit length; the `deltaPos` attribute, which the application sets to 0.2, is never read | UP held with deltaPos 0.2 moves an unturned eye by 1 along -z | steps scaled by `deltaPos`, as turns are scaled by `deltaAtt` | medium (not executed) | MotionModel.StepIgnoresDeltaPos | MotionModel.MovedCorrectedStepLength |
| src/opengl/shaders.h:38-44 | `operator=` copies rhs's program and then zeroes rhs's, with no self-assignment check | `s = s` on a shader owning program 5 leaves it owning program 0, so the program is never deleted | skip the transfer when rhs is this shader | medium (not executed) | Shaders.SelfAssignmentLosesProgram | Shaders.Shader.AssignChecked |
