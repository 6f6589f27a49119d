/** `CameraControls` (src/controls.rs): a first-person camera. Held movement keys move
    the camera along its front and right vectors on every update, without normalising
    diagonal movement; mouse movement turns it by yaw and pitch, with the pitch
    optionally kept within 89 degrees of the horizon; and `set_camera` places it at
    the origin of a scene node's transform. */
module FreeFly {
  import opened Math
  import opened Render

  /** Default yaw and pitch in degrees, movement speed per second, and degrees of turn
      per unit of mouse movement. */
  const DefaultYaw: real := -90.0
  const DefaultPitch: real := 0.0
  const DefaultSpeed: real := 2.5
  const DefaultSensitivity: real := 0.1
  /** How far from the horizon a constrained pitch may go, in degrees. */
  const PitchLimit: real := 89.0

  const WorldUp: Vec3 := Vec3(0.0, 1.0, 0.0)

  /** The direction a movement key stands for. */
  datatype CameraMovement = Forward | Backward | Left | Right

  /** The front vector for yaw and pitch in degrees, before normalisation. */
  function EulerFront(ext: Externals, yaw: real, pitch: real): Vec3 {
    var y := ToRadians(yaw);
    var p := ToRadians(pitch);
    Vec3(ext.cos(y) * ext.cos(p), ext.sin(p), ext.sin(y) * ext.cos(p))
  }

  /** The camera position after one update, key by key as `update` moves it: each held
      key adds a full step along its own axis, independently of the others. */
  function Integrated(position: Vec3, front: Vec3, right: Vec3, forward: bool, backward: bool,
                      leftKey: bool, rightKey: bool, velocity: real): Vec3 {
    Stepped(position, Scale(front, velocity), Scale(right, velocity), forward, backward, leftKey, rightKey)
  }

  /** The key-by-key chain of `update` for a forward step `ahead` and a sideways step
      `aside`. */
  function Stepped(position: Vec3, ahead: Vec3, aside: Vec3, forward: bool, backward: bool,
                   leftKey: bool, rightKey: bool): Vec3 {
    var p1 := if forward then Add(position, ahead) else position;
    var p2 := if backward then Add(p1, Neg(ahead)) else p1;
    var p3 := if leftKey then Add(p2, Neg(aside)) else p2;
    if rightKey then Add(p3, aside) else p3
  }

  /** The distance one update covers: the movement speed times the elapsed seconds. */
  function Velocity(speed: real, seconds: real): real { speed * seconds }

  /** The step a single key contributes: the whole step when held, none otherwise. */
  function Held(step: Vec3, held: bool): Vec3 {
    if held then step else Origin
  }

  /** The net motion of one update: along the front vector by the forward key less the
      backward key, along the right vector by the right key less the left key. */
  function Displacement(front: Vec3, right: Vec3, forward: bool, backward: bool,
                        leftKey: bool, rightKey: bool, velocity: real): Vec3 {
    var ahead := Scale(front, velocity);
    var aside := Scale(right, velocity);
    Add(Sub(Held(ahead, forward), Held(ahead, backward)), Sub(Held(aside, rightKey), Held(aside, leftKey)))
  }

  /** The key-by-key update moves the camera by the net displacement of the held keys. */
  lemma IntegratedIsDisplacement(position: Vec3, front: Vec3, right: Vec3, forward: bool, backward: bool,
                                 leftKey: bool, rightKey: bool, velocity: real)
    ensures Integrated(position, front, right, forward, backward, leftKey, rightKey, velocity)
            == Add(position, Displacement(front, right, forward, backward, leftKey, rightKey, velocity))
  {
    SteppedIsNet(position, Scale(front, velocity), Scale(right, velocity), forward, backward, leftKey, rightKey);
  }

  /** The chain of `update` adds each held key's step once, whatever the order. */
  lemma SteppedIsNet(position: Vec3, ahead: Vec3, aside: Vec3, forward: bool, backward: bool,
                     leftKey: bool, rightKey: bool)
    ensures Stepped(position, ahead, aside, forward, backward, leftKey, rightKey)
            == Add(position, Add(Sub(Held(ahead, forward), Held(ahead, backward)),
                                 Sub(Held(aside, rightKey), Held(aside, leftKey))))
  {
    var p1 := if forward then Add(position, ahead) else position;
    StepIsHeld(position, ahead, forward);
    var p2 := if backward then Add(p1, Neg(ahead)) else p1;
    StepBackIsHeld(p1, ahead, backward);
    var p3 := if leftKey then Add(p2, Neg(aside)) else p2;
    StepBackIsHeld(p2, aside, leftKey);
    StepIsHeld(p3, aside, rightKey);
    Regrouped(position, Held(ahead, forward), Held(ahead, backward), Held(aside, leftKey), Held(aside, rightKey));
  }

  /** One forward key of the chain: adding its step when held is adding `Held`. */
  lemma StepIsHeld(p: Vec3, step: Vec3, held: bool)
    ensures (if held then Add(p, step) else p) == Add(p, Held(step, held))
  {
  }

  /** One backward key of the chain: adding the negated step when held is subtracting `Held`. */
  lemma StepBackIsHeld(p: Vec3, step: Vec3, held: bool)
    ensures (if held then Add(p, Neg(step)) else p) == Sub(p, Held(step, held))
  {
  }

  /** The four steps of the chain, regrouped by axis. */
  lemma Regrouped(p: Vec3, f: Vec3, b: Vec3, l: Vec3, r: Vec3)
    ensures Add(Sub(Sub(Add(p, f), b), l), r) == Add(p, Add(Sub(f, b), Sub(r, l)))
  {
  }

  /** Opposite keys held together cancel each other. */
  lemma OppositeKeysCancel(front: Vec3, right: Vec3, velocity: real)
    ensures Displacement(front, right, true, true, true, true, velocity) == Origin
  {
  }

  /** Diagonal movement is not normalised: with an orthonormal front and right, holding
      forward and right together covers sqrt 2 times the distance of either key alone. */
  lemma DiagonalIsFaster(front: Vec3, right: Vec3, velocity: real)
    requires Dot(front, front) == 1.0 && Dot(right, right) == 1.0 && Dot(front, right) == 0.0
    ensures var d := Displacement(front, right, true, false, false, true, velocity);
            Dot(d, d) == 2.0 * velocity * velocity
    ensures var d := Displacement(front, right, true, false, false, false, velocity);
            Dot(d, d) == velocity * velocity
  {
    var d := Displacement(front, right, true, false, false, true, velocity);
    assert d == Add(Scale(front, velocity), Scale(right, velocity));
    SquaredLengthOfSum(front, right, velocity);
    var d1 := Displacement(front, right, true, false, false, false, velocity);
    assert d1 == Scale(front, velocity);
    SquaredLengthOfScaled(front, velocity);
  }

  /** `|k a + k b|^2 = k^2 (|a|^2 + 2 a.b + |b|^2)`, coordinate by coordinate. */
  lemma SquaredLengthOfSum(a: Vec3, b: Vec3, k: real)
    ensures var d := Add(Scale(a, k), Scale(b, k));
            Dot(d, d) == k * k * (Dot(a, a) + 2.0 * Dot(a, b) + Dot(b, b))
  {
    var sx := a.x * a.x + 2.0 * (a.x * b.x) + b.x * b.x;
    var sy := a.y * a.y + 2.0 * (a.y * b.y) + b.y * b.y;
    var sz := a.z * a.z + 2.0 * (a.z * b.z) + b.z * b.z;
    SquareOfScaledSum(a.x, b.x, k);
    SquareOfScaledSum(a.y, b.y, k);
    SquareOfScaledSum(a.z, b.z, k);
    Distribute(k * k, sx, sy, sz);
  }

  /** Multiplication distributes over a sum of three. */
  lemma Distribute(c: real, x: real, y: real, z: real)
    ensures c * x + c * y + c * z == c * (x + y + z)
  {
  }

  /** One coordinate of `SquaredLengthOfSum`. */
  lemma SquareOfScaledSum(p: real, q: real, k: real)
    ensures (p * k + q * k) * (p * k + q * k) == k * k * (p * p + 2.0 * (p * q) + q * q)
  {
    assert p * k + q * k == (p + q) * k;
    assert (p + q) * (p + q) == p * p + 2.0 * (p * q) + q * q;
  }

  /** `|k a|^2 = k^2 |a|^2`, coordinate by coordinate. */
  lemma SquaredLengthOfScaled(a: Vec3, k: real)
    ensures Dot(Scale(a, k), Scale(a, k)) == k * k * Dot(a, a)
  {
    assert (a.x * k) * (a.x * k) == k * k * (a.x * a.x);
    assert (a.y * k) * (a.y * k) == k * k * (a.y * a.y);
    assert (a.z * k) * (a.z * k) == k * k * (a.z * a.z);
  }

  /** A mouse offset in degrees of turn. */
  function Turned(offset: real, sensitivity: real): real { offset * sensitivity }

  /** The pitch after a mouse movement: constrained, it never passes 89 degrees either
      way, and is the unconstrained pitch saturated at those bounds. */
  function PitchAfter(pitch: real, yoffset: real, sensitivity: real, constrain: bool): (r: real)
    ensures constrain ==> -PitchLimit <= r <= PitchLimit
    ensures constrain ==> r == Clamp(pitch + Turned(yoffset, sensitivity), -PitchLimit, PitchLimit)
    ensures !constrain ==> r == pitch + Turned(yoffset, sensitivity)
  {
    var p := pitch + Turned(yoffset, sensitivity);
    if !constrain then p
    else if p > PitchLimit then PitchLimit
    else if p < -PitchLimit then -PitchLimit
    else p
  }

  /** Where `set_camera` places the camera, as written: the transform applied to the
      zero vector, whose zero `w` drops the translation, so the camera lands at the
      origin whatever the transform. `CameraControls.SetCamera` computes this. */
  function CameraOriginAsWritten(transform: Matrix4): (p: Vec3)
    ensures p == Origin
  {
    Xyz(Transform(transform, Vec4(0.0, 0.0, 0.0, 0.0)))
  }

  /** The pending look target `set_camera` computes, as written: the node's -Z axis
      taken as a direction (`w` = 0), so it too ignores the translation. It has no
      lasting effect, since `update_camera_vectors` overwrites the front it sets. */
  function LookTargetAsWritten(transform: Matrix4): (p: Vec3)
    ensures p == Neg(Xyz(transform.z))
  {
    Xyz(Transform(transform, Vec4(0.0, 0.0, -1.0, 0.0)))
  }

  /** Where `set_camera` evidently means to place the camera: the transformed origin,
      taken as a point (`w` = 1), which is the node's translation. */
  function CameraOrigin(transform: Matrix4): (p: Vec3)
    ensures p == Xyz(transform.w)
  {
    Xyz(Transform(transform, Vec4(0.0, 0.0, 0.0, 1.0)))
  }

  /** The point one unit down the node's local -Z axis, where its lens looks. */
  function LookTarget(transform: Matrix4): (p: Vec3)
    ensures p == Sub(Xyz(transform.w), Xyz(transform.z))
  {
    Xyz(Transform(transform, Vec4(0.0, 0.0, -1.0, 1.0)))
  }

  /** A node translated to (1, 2, 3) shows the defect: as written the camera stays at
      the origin (and the pending look target is (0, 0, -1)), where the corrected
      placement puts it at (1, 2, 3) (`CameraFollowsTranslation`). */
  lemma TranslatedNodeCamera()
    ensures CameraOriginAsWritten(Translation(Vec3(1.0, 2.0, 3.0))) == Origin
    ensures LookTargetAsWritten(Translation(Vec3(1.0, 2.0, 3.0))) == Vec3(0.0, 0.0, -1.0)
  {
    var t := Translation(Vec3(1.0, 2.0, 3.0));
    assert t.z == Vec4(0.0, 0.0, 1.0, 0.0);
    assert LookTargetAsWritten(t) == Neg(Xyz(t.z));
  }

  /** The corrected placement puts the camera of any translated node at the translation. */
  lemma CameraFollowsTranslation(t: Vec3)
    ensures CameraOrigin(Translation(t)) == t
    ensures LookTarget(Translation(t)) == Sub(t, Vec3(0.0, 0.0, 1.0))
  {
  }

  class CameraControls {
    const ext: Externals

    var position: Vec3
    /** Mutually exclusive with `center`: when `center` is set, it is used. */
    var front: Vec3
    var center: Option<Vec3>
    var up: Vec3
    var right: Vec3
    var worldUp: Vec3
    var yaw: real
    var pitch: real
    var movementSpeed: real
    var mouseSensitivity: real
    var camera: Camera
    var movingLeft: bool
    var movingRight: bool
    var movingForward: bool
    var movingBackward: bool

    /** The basis vectors follow from yaw and pitch, and no look target is pending. */
    ghost predicate Oriented()
      reads this
    {
      && center == None
      && front == ext.normalize(EulerFront(ext, yaw, pitch))
      && right == ext.normalize(ext.cross(front, worldUp))
      && up == ext.normalize(ext.cross(right, front))
    }

    /** `CameraControls::default`. */
    constructor Default(ext: Externals)
      ensures this.ext == ext
      ensures position == Origin && worldUp == WorldUp
      ensures yaw == DefaultYaw && pitch == DefaultPitch
      ensures movementSpeed == DefaultSpeed && mouseSensitivity == DefaultSensitivity
      ensures camera == ext.defaultCamera
      ensures !movingLeft && !movingRight && !movingForward && !movingBackward
      ensures Oriented()
    {
      this.ext := ext;
      position := Origin;
      front := Vec3(0.0, 0.0, -1.0);
      center := None;
      up := Origin;
      right := Origin;
      worldUp := WorldUp;
      yaw := DefaultYaw;
      pitch := DefaultPitch;
      movementSpeed := DefaultSpeed;
      mouseSensitivity := DefaultSensitivity;
      camera := ext.defaultCamera;
      movingLeft := false;
      movingRight := false;
      movingForward := false;
      movingBackward := false;
      new;
      UpdateCameraVectors();
    }

    /** Move along the held keys for `deltaTime` seconds. */
    method Update(deltaTime: real)
      modifies this`position
      ensures position == Integrated(old(position), front, right, movingForward, movingBackward,
                                     movingLeft, movingRight, Velocity(movementSpeed, deltaTime))
    {
      var velocity := Velocity(movementSpeed, deltaTime);
      if movingForward {
        position := Add(position, Scale(front, velocity));
      }
      if movingBackward {
        position := Add(position, Neg(Scale(front, velocity)));
      }
      if movingLeft {
        position := Add(position, Neg(Scale(right, velocity)));
      }
      if movingRight {
        position := Add(position, Scale(right, velocity));
      }
    }

    /** Press or release one movement key. */
    method ProcessKeyboard(direction: CameraMovement, pressed: bool)
      modifies this`movingForward, this`movingBackward, this`movingLeft, this`movingRight
      ensures movingForward == if direction == Forward then pressed else old(movingForward)
      ensures movingBackward == if direction == Backward then pressed else old(movingBackward)
      ensures movingLeft == if direction == Left then pressed else old(movingLeft)
      ensures movingRight == if direction == Right then pressed else old(movingRight)
    {
      match direction
      case Forward => movingForward := pressed;
      case Backward => movingBackward := pressed;
      case Left => movingLeft := pressed;
      case Right => movingRight := pressed;
    }

    /** Turn by a mouse movement, scaled by the sensitivity. */
    method ProcessMouseMovement(xoffset: real, yoffset: real, constrainPitch: bool)
      modifies this`yaw, this`pitch, this`front, this`center, this`right, this`up
      ensures yaw == old(yaw) + Turned(xoffset, mouseSensitivity)
      ensures pitch == PitchAfter(old(pitch), yoffset, mouseSensitivity, constrainPitch)
      ensures Oriented()
    {
      var xoffset := Turned(xoffset, mouseSensitivity);
      var yoffset := Turned(yoffset, mouseSensitivity);

      yaw := yaw + xoffset;
      pitch := pitch + yoffset;

      if constrainPitch {
        if pitch > PitchLimit {
          pitch := PitchLimit;
        }
        if pitch < -PitchLimit {
          pitch := -PitchLimit;
        }
      }

      UpdateCameraVectors();
    }

    /** Recompute the basis from yaw and pitch. A pending look target is consumed first:
        it sets `front`, which the yaw and pitch then overwrite. */
    method UpdateCameraVectors()
      modifies this`front, this`center, this`right, this`up
      ensures Oriented()
    {
      if center.Some? {
        front := Sub(center.value, position);
        center := None;
      }
      front := ext.normalize(EulerFront(ext, yaw, pitch));
      right := ext.normalize(ext.cross(front, worldUp));
      up := ext.normalize(ext.cross(right, front));
    }

    /** Attach to a scene camera: take its node's position and look target, as written
        with `w` = 0 (see `CameraOriginAsWritten`), and its camera except for the field
        of view, which stays the controller's own. */
    method SetCamera(camera: Camera, transform: Matrix4)
      modifies this`position, this`center, this`camera, this`front, this`right, this`up
      ensures position == CameraOriginAsWritten(transform)
      ensures this.camera == camera.(fovy := old(this.camera.fovy))
      ensures Oriented()
    {
      var pos := Transform(transform, Vec4(0.0, 0.0, 0.0, 0.0));
      var lookAt := Transform(transform, Vec4(0.0, 0.0, -1.0, 0.0));

      position := Xyz(pos);
      center := Some(Xyz(lookAt));

      this.camera := camera.(fovy := this.camera.fovy);

      UpdateCameraVectors();
    }
  }
}
