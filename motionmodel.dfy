/** The keyboard motion model: each frame it moves the eye one step along the eye's own forward,
    backward, up or down axis for each movement key held, and then turns the eye's attitude
    (heading, pitch, roll in degrees) by `deltaAtt` for each turning key held. */
module MotionModel {
  import opened Libm
  import opened Vector3
  import opened Matrix4
  import Camera

  /** the keys `computeMotion` polls: the arrow keys and the numeric keypad */
  datatype Key = Up | Down | Left | Right | Numpad2 | Numpad3 | Numpad4 | Numpad6 | Numpad8 | Numpad9

  /** the eye-space step vectors of the four movement keys */
  const ForwardStep: Vec3 := Vec3(0.0, 0.0, -1.0)
  const BackwardStep: Vec3 := Vec3(0.0, 0.0, 1.0)
  const UpStep: Vec3 := Vec3(0.0, 1.0, 0.0)
  const DownStep: Vec3 := Vec3(0.0, -1.0, 0.0)

  /** 1 when the key is held, 0 otherwise */
  function Held(key: Key, pressed: set<Key>): (n: real)
    ensures n == 1.0 || n == 0.0
    ensures n == 1.0 <==> key in pressed
  {
    if key in pressed then 1.0 else 0.0
  }

  /** an eye-space step carried into world space by the attitude matrix `frame` */
  function WorldStep(frame: Mat4, step: Vec3): Vec3 {
    TransformPoint(frame, step)
  }

  /** the position after one movement key's step (when it is held) */
  function MoveIf(position: Vec3, frame: Mat4, pressed: set<Key>, key: Key, step: Vec3): Vec3 {
    if key in pressed then Add(position, WorldStep(frame, step)) else position
  }

  /** the eye position after the four movement keys (UP, DOWN, NUMPAD9, NUMPAD3, in the order they
      are polled) with the given eye-space steps; every step is taken with the same attitude
      matrix `frame`, the one the eye had before this frame's turns */
  function MovedBy(position: Vec3, frame: Mat4, pressed: set<Key>, forward: Vec3, backward: Vec3, up: Vec3, down: Vec3): Vec3 {
    var afterUp := MoveIf(position, frame, pressed, Up, forward);
    var afterDown := MoveIf(afterUp, frame, pressed, Down, backward);
    var afterNumpad9 := MoveIf(afterDown, frame, pressed, Numpad9, up);
    MoveIf(afterNumpad9, frame, pressed, Numpad3, down)
  }

  /** the movement `computeMotion` makes: unit steps */
  function Moved(position: Vec3, frame: Mat4, pressed: set<Key>): Vec3 {
    MovedBy(position, frame, pressed, ForwardStep, BackwardStep, UpStep, DownStep)
  }

  /** the attitude after the six turning keys, in the order they are polled: LEFT lowers and RIGHT
      raises the heading, NUMPAD2 raises and NUMPAD8 lowers the pitch, NUMPAD6 raises and NUMPAD4
      lowers the roll, each by deltaAtt */
  function Turned(attitude: Vec3, deltaAtt: real, pressed: set<Key>): Vec3 {
    var h := attitude.x;
    var h := if Left in pressed then h - deltaAtt else h;
    var h := if Right in pressed then h + deltaAtt else h;
    var p := attitude.y;
    var p := if Numpad2 in pressed then p + deltaAtt else p;
    var p := if Numpad8 in pressed then p - deltaAtt else p;
    var r := attitude.z;
    var r := if Numpad6 in pressed then r + deltaAtt else r;
    var r := if Numpad4 in pressed then r - deltaAtt else r;
    Vec3(h, p, r)
  }

  // ---------------------------------------------------------------------------
  // What one frame does, in closed form
  // ---------------------------------------------------------------------------

  /** the net eye-space displacement of the held movement keys: one unit along -z for UP, +z for
      DOWN, +y for NUMPAD9 and -y for NUMPAD3 */
  function NetStep(pressed: set<Key>): Vec3 {
    Vec3(0.0, Held(Numpad9, pressed) - Held(Numpad3, pressed), Held(Down, pressed) - Held(Up, pressed))
  }

  /** one row of `TransformPoint`: the point dotted with (a0, a1, a2), plus the offset a3 */
  function Row(a0: real, a1: real, a2: real, a3: real, p: Vec3): real {
    a0 * p.x + a1 * p.y + a2 * p.z + a3
  }

  /** a row with no offset is linear in the point */
  lemma RowLinear(a0: real, a1: real, a2: real, a3: real, u: Vec3, v: Vec3)
    requires a3 == 0.0
    ensures Row(a0, a1, a2, a3, Add(u, v)) == Row(a0, a1, a2, a3, u) + Row(a0, a1, a2, a3, v)
    ensures Row(a0, a1, a2, a3, Neg(u)) == -Row(a0, a1, a2, a3, u)
  {
    assert a0 * (u.x + v.x) + a1 * (u.y + v.y) + a2 * (u.z + v.z)
      == (a0 * u.x + a1 * u.y + a2 * u.z) + (a0 * v.x + a1 * v.y + a2 * v.z);
  }

  /** `TransformPoint` row by row */
  lemma WorldStepRows(frame: Mat4, p: Vec3)
    ensures WorldStep(frame, p) == Vec3(
      Row(frame.m00, frame.m01, frame.m02, frame.m03, p),
      Row(frame.m10, frame.m11, frame.m12, frame.m13, p),
      Row(frame.m20, frame.m21, frame.m22, frame.m23, p))
  {
  }

  /** a frame matrix whose column 3 is zero carries steps linearly: sums to sums, negations to
      negations and zero to zero (the attitude matrix is one, by `Camera.AttitudeIsLinear`) */
  lemma WorldStepLinear(frame: Mat4, u: Vec3, v: Vec3)
    requires frame.m03 == 0.0 && frame.m13 == 0.0 && frame.m23 == 0.0
    ensures Add(WorldStep(frame, u), WorldStep(frame, v)) == WorldStep(frame, Add(u, v))
    ensures WorldStep(frame, Neg(u)) == Neg(WorldStep(frame, u))
    ensures WorldStep(frame, Zero) == Zero
  {
    RowLinear(frame.m00, frame.m01, frame.m02, frame.m03, u, v);
    RowLinear(frame.m10, frame.m11, frame.m12, frame.m13, u, v);
    RowLinear(frame.m20, frame.m21, frame.m22, frame.m23, u, v);
    WorldStepRows(frame, u);
    WorldStepRows(frame, v);
    WorldStepRows(frame, Add(u, v));
    WorldStepRows(frame, Neg(u));
  }

  /** the eye-space step a key contributes: its step when held, nothing otherwise */
  function KeyStep(pressed: set<Key>, key: Key, step: Vec3): Vec3 {
    if key in pressed then step else Zero
  }

  /** one key's move is the world step of its contribution */
  lemma MoveIfIsKeyStep(position: Vec3, frame: Mat4, pressed: set<Key>, key: Key, step: Vec3)
    requires frame.m03 == 0.0 && frame.m13 == 0.0 && frame.m23 == 0.0
    ensures MoveIf(position, frame, pressed, key, step) == Add(position, WorldStep(frame, KeyStep(pressed, key, step)))
  {
    if key !in pressed {
      assert WorldStep(frame, Zero) == Zero by {
        WorldStepRows(frame, Zero);
      }
      assert Add(position, Zero) == position;
    }
  }

  /** the four moves add up: the eye moves by the world step of the sum of the held keys' steps */
  lemma {:induction false} MovedByIsSum(position: Vec3, frame: Mat4, pressed: set<Key>, forward: Vec3, backward: Vec3, up: Vec3, down: Vec3)
    requires frame.m03 == 0.0 && frame.m13 == 0.0 && frame.m23 == 0.0
    ensures MovedBy(position, frame, pressed, forward, backward, up, down) == Add(position, WorldStep(frame,
      Add(Add(Add(KeyStep(pressed, Up, forward), KeyStep(pressed, Down, backward)), KeyStep(pressed, Numpad9, up)), KeyStep(pressed, Numpad3, down))))
  {
    var k1, k2 := KeyStep(pressed, Up, forward), KeyStep(pressed, Down, backward);
    var k3, k4 := KeyStep(pressed, Numpad9, up), KeyStep(pressed, Numpad3, down);
    MoveIfIsKeyStep(position, frame, pressed, Up, forward);
    var p1 := Add(position, WorldStep(frame, k1));
    MoveIfIsKeyStep(p1, frame, pressed, Down, backward);
    WorldStepLinear(frame, k1, k2);
    var s2 := Add(k1, k2);
    var p2 := Add(position, WorldStep(frame, s2));
    assert MoveIf(p1, frame, pressed, Down, backward) == p2;
    MoveIfIsKeyStep(p2, frame, pressed, Numpad9, up);
    WorldStepLinear(frame, s2, k3);
    var s3 := Add(s2, k3);
    var p3 := Add(position, WorldStep(frame, s3));
    assert MoveIf(p2, frame, pressed, Numpad9, up) == p3;
    MoveIfIsKeyStep(p3, frame, pressed, Numpad3, down);
    WorldStepLinear(frame, s3, k4);
  }

  /** the movement keys move the eye by the frame applied to their net eye-space step: opposite
      keys cancel and the order of polling does not matter */
  lemma MovedIsNetStep(position: Vec3, frame: Mat4, pressed: set<Key>)
    requires frame.m03 == 0.0 && frame.m13 == 0.0 && frame.m23 == 0.0
    ensures Moved(position, frame, pressed) == Add(position, WorldStep(frame, NetStep(pressed)))
  {
    MovedByIsSum(position, frame, pressed, ForwardStep, BackwardStep, UpStep, DownStep);
  }

  /** each turning key pair changes only its own attitude component, by deltaAtt per key held */
  lemma TurnedIsNetTurn(attitude: Vec3, deltaAtt: real, pressed: set<Key>)
    ensures Turned(attitude, deltaAtt, pressed) == Vec3(
      attitude.x + deltaAtt * (Held(Right, pressed) - Held(Left, pressed)),
      attitude.y + deltaAtt * (Held(Numpad2, pressed) - Held(Numpad8, pressed)),
      attitude.z + deltaAtt * (Held(Numpad6, pressed) - Held(Numpad4, pressed)))
  {
  }

  /** with both keys of every opposite pair held, or with none held, the eye neither moves nor
      turns */
  lemma OppositeKeysCancel(position: Vec3, attitude: Vec3, deltaAtt: real, pressed: set<Key>, lib: Libm)
    requires (Up in pressed <==> Down in pressed) && (Numpad9 in pressed <==> Numpad3 in pressed)
    requires (Left in pressed <==> Right in pressed) && (Numpad2 in pressed <==> Numpad8 in pressed)
    requires Numpad6 in pressed <==> Numpad4 in pressed
    ensures Moved(position, Camera.Attitude(attitude, lib), pressed) == position
    ensures Turned(attitude, deltaAtt, pressed) == attitude
  {
    var frame := Camera.Attitude(attitude, lib);
    assert Moved(position, frame, pressed) == position by {
      Camera.AttitudeIsLinear(attitude, lib);
      MovedIsNetStep(position, frame, pressed);
      assert NetStep(pressed) == Zero;
      WorldStepLinear(frame, Zero, Zero);
      assert Add(position, Zero) == position;
    }
    TurnedIsNetTurn(attitude, deltaAtt, pressed);
  }

  /** with a zero attitude the eye moves along the world axes: one unit along -z for UP, and so on */
  lemma MovedAtZeroAttitude(position: Vec3, pressed: set<Key>, lib: Libm)
    requires lib.TrigValid()
    ensures Moved(position, Camera.Attitude(Zero, lib), pressed) == Add(position, NetStep(pressed))
  {
    Camera.AttitudeAtZero(lib);
    MovedIsNetStep(position, Identity, pressed);
    TransformIdentityAndOffset(Identity, NetStep(pressed));
  }

  /** as written, a frame with only UP held among the movement keys moves an unturned eye by one
      whole unit along -z, whatever `deltaPos` holds (`Moved` does not take it at all) */
  lemma StepIgnoresDeltaPos(position: Vec3, pressed: set<Key>, lib: Libm)
    requires lib.TrigValid()
    requires Up in pressed && Down !in pressed && Numpad9 !in pressed && Numpad3 !in pressed
    ensures Moved(position, Camera.Attitude(Zero, lib), pressed) == Add(position, Vec3(0.0, 0.0, -1.0))
  {
    MovedAtZeroAttitude(position, pressed, lib);
  }

  /** the movement the `deltaPos` attribute is evidently meant for: each step scaled by it */
  function MovedCorrected(position: Vec3, frame: Mat4, deltaPos: real, pressed: set<Key>): Vec3 {
    MovedBy(position, frame, pressed, Scale(ForwardStep, deltaPos), Scale(BackwardStep, deltaPos), Scale(UpStep, deltaPos), Scale(DownStep, deltaPos))
  }

  /** with the steps scaled, the eye moves by deltaPos times the net step; a unit deltaPos gives
      the movement as written */
  lemma MovedIsScaledStep(position: Vec3, frame: Mat4, deltaPos: real, pressed: set<Key>)
    requires frame.m03 == 0.0 && frame.m13 == 0.0 && frame.m23 == 0.0
    ensures MovedCorrected(position, frame, deltaPos, pressed) == Add(position, WorldStep(frame, Scale(NetStep(pressed), deltaPos)))
    ensures MovedCorrected(position, frame, 1.0, pressed) == Moved(position, frame, pressed)
  {
    var d := deltaPos;
    MovedByIsSum(position, frame, pressed, Scale(ForwardStep, d), Scale(BackwardStep, d), Scale(UpStep, d), Scale(DownStep, d));
    var k1, k2 := KeyStep(pressed, Up, ForwardStep), KeyStep(pressed, Down, BackwardStep);
    var k3, k4 := KeyStep(pressed, Numpad9, UpStep), KeyStep(pressed, Numpad3, DownStep);
    KeyStepScaled(pressed, Up, ForwardStep, d);
    KeyStepScaled(pressed, Down, BackwardStep, d);
    KeyStepScaled(pressed, Numpad9, UpStep, d);
    KeyStepScaled(pressed, Numpad3, DownStep, d);
    ScaleAdd(k1, k2, d);
    ScaleAdd(Add(k1, k2), k3, d);
    ScaleAdd(Add(Add(k1, k2), k3), k4, d);
    KeyStepsSum(pressed);
    assert Scale(ForwardStep, 1.0) == ForwardStep && Scale(BackwardStep, 1.0) == BackwardStep;
    assert Scale(UpStep, 1.0) == UpStep && Scale(DownStep, 1.0) == DownStep;
  }

  /** a held key contributes its step scaled, an unheld one nothing */
  lemma KeyStepScaled(pressed: set<Key>, key: Key, step: Vec3, d: real)
    ensures KeyStep(pressed, key, Scale(step, d)) == Scale(KeyStep(pressed, key, step), d)
  {
    if key !in pressed {
      assert Scale(Zero, d) == Zero;
    }
  }

  /** scaling distributes over addition */
  lemma ScaleAdd(u: Vec3, v: Vec3, d: real)
    ensures Scale(Add(u, v), d) == Add(Scale(u, d), Scale(v, d))
  {
    assert (u.x + v.x) * d == u.x * d + v.x * d;
    assert (u.y + v.y) * d == u.y * d + v.y * d;
    assert (u.z + v.z) * d == u.z * d + v.z * d;
  }

  /** the contributions of the four movement keys add up to the net step */
  lemma KeyStepsSum(pressed: set<Key>)
    ensures Add(Add(Add(KeyStep(pressed, Up, ForwardStep), KeyStep(pressed, Down, BackwardStep)),
      KeyStep(pressed, Numpad9, UpStep)), KeyStep(pressed, Numpad3, DownStep)) == NetStep(pressed)
  {
  }

  /** with the steps scaled, a zero deltaPos keeps the eye still whatever keys are held */
  lemma MovedCorrectedZeroStep(position: Vec3, frame: Mat4, pressed: set<Key>)
    requires frame.m03 == 0.0 && frame.m13 == 0.0 && frame.m23 == 0.0
    ensures MovedCorrected(position, frame, 0.0, pressed) == position
  {
    MovedIsScaledStep(position, frame, 0.0, pressed);
    var net := NetStep(pressed);
    assert Scale(net, 0.0) == Zero;
    WorldStepLinear(frame, Zero, Zero);
    assert Add(position, Zero) == position;
  }

  /** the forward step scaled by d is d along -z */
  lemma ScaledForwardStep(d: real)
    ensures Scale(ForwardStep, d) == Vec3(0.0, 0.0, -d)
  {
    assert 0.0 * d == 0.0 && -1.0 * d == -d;
  }

  /** with the steps scaled and only UP held among the movement keys, the eye moves by the frame
      applied to deltaPos along -z */
  lemma MovedCorrectedForward(position: Vec3, frame: Mat4, deltaPos: real, pressed: set<Key>)
    requires frame.m03 == 0.0 && frame.m13 == 0.0 && frame.m23 == 0.0
    requires Up in pressed && Down !in pressed && Numpad9 !in pressed && Numpad3 !in pressed
    ensures MovedCorrected(position, frame, deltaPos, pressed) == Add(position, WorldStep(frame, Vec3(0.0, 0.0, -deltaPos)))
  {
    MovedIsScaledStep(position, frame, deltaPos, pressed);
    assert NetStep(pressed) == ForwardStep;
    ScaledForwardStep(deltaPos);
  }

  /** with the steps scaled, an unturned eye with only UP held among the movement keys moves
      exactly deltaPos along -z */
  lemma MovedCorrectedStepLength(position: Vec3, deltaPos: real, pressed: set<Key>, lib: Libm)
    requires lib.TrigValid()
    requires Up in pressed && Down !in pressed && Numpad9 !in pressed && Numpad3 !in pressed
    ensures MovedCorrected(position, Camera.Attitude(Zero, lib), deltaPos, pressed) == Add(position, Vec3(0.0, 0.0, -deltaPos))
  {
    Camera.AttitudeAtZero(lib);
    MovedCorrectedForward(position, Identity, deltaPos, pressed);
    TransformIdentityAndOffset(Identity, Vec3(0.0, 0.0, -deltaPos));
  }

  // ---------------------------------------------------------------------------
  // The motion model object
  // ---------------------------------------------------------------------------

  /** the file-local `attitudeMatrix` helper: a fresh identity rotated in place about Oy by the
      heading, about Ox by the negated pitch and about Oz by the negated roll */
  method AttitudeMatrixOf(attitude: Vec3, lib: Libm) returns (transform: Matrix)
    ensures fresh(transform) && fresh(transform.matrix) && transform.Valid()
    ensures transform.Value() == Camera.Attitude(attitude, lib)
  {
    transform := new Matrix();
    transform.RotateOy(Constants.DegToRad * attitude.x, lib);
    transform.RotateOx(-Constants.DegToRad * attitude.y, lib);
    transform.RotateOz(-Constants.DegToRad * attitude.z, lib);
  }

  /** `MotionModel`: the eye's position and attitude and the two step sizes */
  class MotionModel {
    var eyePosition: Vec3
    var eyeAttitude: Vec3
    var deltaPos: real
    var deltaAtt: real

    /** the eye starts at the origin with zero attitude; the two step sizes have no initialiser,
        so whatever they start with is a parameter */
    constructor (deltaPos: real, deltaAtt: real)
      ensures eyePosition == Zero && eyeAttitude == Zero
      ensures this.deltaPos == deltaPos && this.deltaAtt == deltaAtt
    {
      eyePosition := Zero;
      eyeAttitude := Zero;
      this.deltaPos := deltaPos;
      this.deltaAtt := deltaAtt;
    }

    /** one movement block of `computeMotion()`: when the key is held, the eye-space step is
        carried into world space by the current attitude matrix and added to the eye position */
    method MoveIfHeld(pressed: set<Key>, key: Key, step: Vec3, lib: Libm)
      modifies this
      ensures eyePosition == MoveIf(old(eyePosition), Camera.Attitude(eyeAttitude, lib), pressed, key, step)
      ensures eyeAttitude == old(eyeAttitude) && deltaPos == old(deltaPos) && deltaAtt == old(deltaAtt)
    {
      if key in pressed {
        var direction := new Vector.FromComponents(step.x, step.y, step.z);
        var attitudeMatrix := AttitudeMatrixOf(eyeAttitude, lib);
        attitudeMatrix.TransformVector(direction);
        eyePosition := Add(eyePosition, direction.Value());
      }
    }

    /** `computeMotion()`, with the keys held during this frame as a set: the movement keys step
        the eye with the attitude it had at the start of the frame, then the turning keys turn it;
        the step sizes are left as they are */
    method ComputeMotion(pressed: set<Key>, lib: Libm)
      modifies this
      ensures eyePosition == Moved(old(eyePosition), Camera.Attitude(old(eyeAttitude), lib), pressed)
      ensures eyeAttitude == Turned(old(eyeAttitude), deltaAtt, pressed)
      ensures deltaPos == old(deltaPos) && deltaAtt == old(deltaAtt)
    {
      ghost var start, frame := eyePosition, Camera.Attitude(eyeAttitude, lib);
      MoveIfHeld(pressed, Up, ForwardStep, lib);
      MoveIfHeld(pressed, Down, BackwardStep, lib);
      MoveIfHeld(pressed, Numpad9, UpStep, lib);
      MoveIfHeld(pressed, Numpad3, DownStep, lib);
      assert eyePosition == Moved(start, frame, pressed);
      ghost var attitude, turned := eyeAttitude, Turned(eyeAttitude, deltaAtt, pressed);

      if Left in pressed {
        eyeAttitude := eyeAttitude.(x := eyeAttitude.x - deltaAtt);
      }
      if Right in pressed {
        eyeAttitude := eyeAttitude.(x := eyeAttitude.x + deltaAtt);
      }
      assert eyeAttitude == attitude.(x := turned.x);
      if Numpad2 in pressed {
        eyeAttitude := eyeAttitude.(y := eyeAttitude.y + deltaAtt);
      }
      if Numpad8 in pressed {
        eyeAttitude := eyeAttitude.(y := eyeAttitude.y - deltaAtt);
      }
      assert eyeAttitude == attitude.(x := turned.x, y := turned.y);
      if Numpad6 in pressed {
        eyeAttitude := eyeAttitude.(z := eyeAttitude.z + deltaAtt);
      }
      if Numpad4 in pressed {
        eyeAttitude := eyeAttitude.(z := eyeAttitude.z - deltaAtt);
      }
    }
  }
}
