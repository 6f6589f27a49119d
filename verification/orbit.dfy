/** `OrbitControls` (src/controls.rs): a camera that orbits a target point. Mouse drags
    either rotate the camera around the target or pan the target; each drag sample is
    folded into the committed position at once by `update`, which clamps the polar
    angle away from the poles and resets the pending accumulators. The scroll wheel
    zooms by changing the camera's field of view.

    The functions over `OrbitState` specify each operation on the whole state; the
    class `OrbitControls` updates its fields in place, step by step as the source does,
    and every method is proved to produce the state its function describes. */
module Orbit {
  import opened Math
  import opened Render

  /** Degrees of field of view per unit of scroll. */
  const ZoomSensitivity: real := 0.1
  /** Narrowest and widest field of view, in degrees. */
  const MinZoom: real := 1.0
  const MaxZoom: real := 170.0
  /** Distance kept between the polar angle and either pole. */
  const PolarEpsilon: real := 0.0001

  /** The gesture in progress; the caller sets it on mouse-button press. */
  datatype NavState = None | Rotating | Panning

  /** What a mouse move reports: `Unimplemented` stands for the panic that `pan` raises
      for an orthographic camera, after which nothing else of the move runs. */
  datatype Outcome = Done | Unimplemented(what: string)

  /** The value of every modelled field of an `OrbitControls`. */
  datatype OrbitState = OrbitState(
    camera: Camera,
    position: Vec3,
    target: Vec3,
    state: NavState,
    spherical: Spherical,
    sphericalDelta: Spherical,
    scale: real,
    panOffset: Vec3,
    rotateStart: Option<Vec2>,
    rotateEnd: Vec2,
    panStart: Option<Vec2>,
    panEnd: Vec2,
    screenWidth: real,
    screenHeight: real,
    offset: Vec3)

  predicate InZoomRange(fovy: real) {
    MinZoom <= fovy <= MaxZoom
  }

  /** The polar angle keeps its distance from both poles. */
  predicate PolarClamped(s: Spherical) {
    PolarEpsilon <= s.phi <= PI - PolarEpsilon
  }

  /** No rotation and no radius change is waiting for the next `update`. */
  predicate AtRest(o: OrbitState) {
    o.sphericalDelta.phi == 0.0 && o.sphericalDelta.theta == 0.0 && o.scale == 1.0
  }

  /** Every accumulator holds the value `update` leaves in it. */
  predicate Settled(o: OrbitState) {
    o.sphericalDelta == ZeroSpherical && o.scale == 1.0 && o.panOffset == Origin
  }

  /** The viewport sizes that pointer deltas are divided by are not zero. */
  predicate ScreenSized(o: OrbitState) {
    o.screenWidth != 0.0 && o.screenHeight != 0.0
  }

  /** A mouse move can be taken: idle; rotating with a viewport to divide by; or panning,
      with a screen height to divide by unless the camera is orthographic, whose pan stops
      before any division. */
  predicate CanMove(o: OrbitState) {
    || o.state == NavState.None
    || (o.state == Rotating && ScreenSized(o))
    || (o.state == Panning && (o.camera.perspective ==> o.screenHeight != 0.0))
  }

  /** A move in this state reaches the orthographic branch of `pan`. */
  predicate PanUnsupported(o: OrbitState) {
    o.state == Panning && !o.camera.perspective
  }

  /** `OrbitControls::new`. */
  function Initial(ext: Externals, position: Vec3, screenWidth: real, screenHeight: real): (o: OrbitState)
    ensures o.state == NavState.None && o.rotateStart == Math.None && o.panStart == Math.None
    ensures o.scale == 1.0 && o.panOffset == Origin && o.target == Origin && o.position == position
    ensures o.screenWidth == screenWidth && o.screenHeight == screenHeight
    ensures o.camera == ext.defaultCamera
    ensures o.spherical == ext.defaultSpherical && o.sphericalDelta == ext.defaultSpherical
  {
    OrbitState(ext.defaultCamera, position, Origin, NavState.None,
               ext.defaultSpherical, ext.defaultSpherical, 1.0, Origin,
               Math.None, NoMotion, Math.None, NoMotion,
               screenWidth, screenHeight, Origin)
  }

  /** `update`: recompute the spherical coordinates of the camera around the target,
      apply the pending rotation, clamp the polar angle, scale the radius, move the
      target by the pending pan, place the camera, and reset every accumulator. */
  function Updated(ext: Externals, o: OrbitState): (r: OrbitState)
    ensures Settled(r)
    ensures PolarClamped(r.spherical)
    ensures var s := ext.fromVec3(Sub(o.position, o.target));
            && r.spherical.phi == Clamp(s.phi + o.sphericalDelta.phi, PolarEpsilon, PI - PolarEpsilon)
            && r.spherical.theta == s.theta + o.sphericalDelta.theta
            && r.spherical.radius == s.radius * o.scale
    ensures r.target == Add(o.target, o.panOffset)
    ensures r.offset == ext.toVec3(r.spherical) && r.offset == Sub(r.position, r.target)
    ensures r == o.(position := r.position, target := r.target, spherical := r.spherical,
                    sphericalDelta := r.sphericalDelta, scale := r.scale,
                    panOffset := r.panOffset, offset := r.offset)
  {
    var s := ext.fromVec3(Sub(o.position, o.target));
    var spherical := Spherical(s.radius * o.scale,
                               Clamp(s.phi + o.sphericalDelta.phi, PolarEpsilon, PI - PolarEpsilon),
                               s.theta + o.sphericalDelta.theta);
    var target := Add(o.target, o.panOffset);
    var offset := ext.toVec3(spherical);
    o.(spherical := spherical, target := target, offset := offset, position := Add(target, offset),
       sphericalDelta := ZeroSpherical, scale := 1.0, panOffset := Origin)
  }

  /** The pointer motion of one drag sample: none for the first sample of a drag (no
      anchor yet), otherwise what takes the anchor to the pointer. */
  function DragDelta(anchor: Option<Vec2>, pointer: Vec2): (d: Vec2)
    ensures anchor.None? ==> d == NoMotion
    ensures anchor.Some? ==> Add2(anchor.value, d) == pointer
  {
    if anchor.Some? then Sub2(pointer, anchor.value) else NoMotion
  }

  /** `rotate_left`, `rotate_up`, `pan_left`, `pan_up`: accumulate without committing. */
  function RotatedLeft(o: OrbitState, angle: real): OrbitState {
    o.(sphericalDelta := o.sphericalDelta.(theta := o.sphericalDelta.theta - angle))
  }

  function RotatedUp(o: OrbitState, angle: real): OrbitState {
    o.(sphericalDelta := o.sphericalDelta.(phi := o.sphericalDelta.phi - angle))
  }

  function PannedLeft(o: OrbitState, distance: real): OrbitState {
    o.(panOffset := o.panOffset.(x := o.panOffset.x - distance))
  }

  function PannedUp(o: OrbitState, distance: real): OrbitState {
    o.(panOffset := o.panOffset.(y := o.panOffset.y - distance))
  }

  /** The angle a drag of `pixels` turns: a full turn per `extent` pixels. */
  function DragAngle(pixels: real, extent: real): real
    requires extent != 0.0
  {
    2.0 * PI * pixels / extent
  }

  /** `handle_mouse_move_rotate`: a drag across the whole width turns the azimuth by a
      full turn, one across the whole height the polar angle by a nominal full turn. */
  function MovedRotate(ext: Externals, o: OrbitState, x: real, y: real): OrbitState
    requires ScreenSized(o)
  {
    var end := Vec2(x, y);
    var delta := DragDelta(o.rotateStart, end);
    var o1 := RotatedLeft(o.(rotateEnd := end), DragAngle(delta.x, o.screenWidth));
    var o2 := RotatedUp(o1, DragAngle(delta.y, o.screenHeight));
    Updated(ext, o2.(rotateStart := Some(end)))
  }

  /** The world distance that half the screen height spans at the target's depth, as
      `pan` computes it: the tangent is taken of half the field of view in degrees, and
      only the product is then scaled by pi / 180. */
  function TargetDistance(ext: Externals, o: OrbitState): real {
    Foreshortened(ext.magnitude(Sub(o.position, o.target)), ext.tan(o.camera.fovy / 2.0))
  }

  /** A distance scaled by a tangent, with the degree-to-radian factor applied after it. */
  function Foreshortened(distance: real, tangent: real): real {
    distance * (tangent * PI / 180.0)
  }

  /** The pan distance for a drag of `pixels`: twice the pixels' share of the screen
      height, times the world distance half the screen height spans. */
  function PanDistance(pixels: real, targetDistance: real, screenHeight: real): real
    requires screenHeight != 0.0
  {
    2.0 * pixels * targetDistance / screenHeight
  }

  /** `pan` for a perspective camera; both axes are normalised by the screen height. */
  function Panned(ext: Externals, o: OrbitState, delta: Vec2): OrbitState
    requires o.screenHeight != 0.0
  {
    var distance := TargetDistance(ext, o);
    var o1 := o.(offset := Sub(o.position, o.target));
    var o2 := PannedLeft(o1, PanDistance(delta.x, distance, o.screenHeight));
    PannedUp(o2, PanDistance(delta.y, distance, o.screenHeight))
  }

  /** `handle_mouse_move_pan`; for an orthographic camera the move stops in `pan`, having
      recorded only the pointer. */
  function MovedPan(ext: Externals, o: OrbitState, x: real, y: real): OrbitState
    requires o.camera.perspective ==> o.screenHeight != 0.0
  {
    var end := Vec2(x, y);
    var o1 := o.(panEnd := end);
    if !o.camera.perspective then o1
    else Updated(ext, Panned(ext, o1, DragDelta(o.panStart, end)).(panStart := Some(end)))
  }

  /** `handle_mouse_move`: dispatch on the gesture in progress. */
  function MouseMoved(ext: Externals, o: OrbitState, x: real, y: real): (r: OrbitState)
    requires CanMove(o)
    ensures r.state == o.state && r.camera == o.camera
    ensures r.screenWidth == o.screenWidth && r.screenHeight == o.screenHeight
    ensures o.state == NavState.None ==> r == o
    ensures o.state == Rotating ==>
              && Settled(r) && PolarClamped(r.spherical)
              && r.rotateStart == Some(Vec2(x, y)) && r.panStart == o.panStart
    ensures o.state == Panning && o.camera.perspective ==>
              && Settled(r) && PolarClamped(r.spherical)
              && r.panStart == Some(Vec2(x, y)) && r.rotateStart == o.rotateStart
    ensures PanUnsupported(o) ==> r == o.(panEnd := Vec2(x, y))
  {
    match o.state
    case Rotating => MovedRotate(ext, o, x, y)
    case Panning => MovedPan(ext, o, x, y)
    case None => o
  }

  /** `handle_mouse_up`: forget both drag anchors, and nothing else. */
  function MouseUp(o: OrbitState): (r: OrbitState)
    ensures r.rotateStart == Math.None && r.panStart == Math.None
    ensures r.(rotateStart := o.rotateStart, panStart := o.panStart) == o
  {
    o.(rotateStart := Math.None, panStart := Math.None)
  }

  /** The field of view after a scroll of `yoffset`: moved by the scroll only when it
      starts inside the zoom range, then saturated at either bound. */
  function ScrolledFovy(fovy: real, yoffset: real): (r: real)
    ensures InZoomRange(r)
    ensures InZoomRange(fovy) && InZoomRange(fovy - yoffset * ZoomSensitivity) ==>
              r == fovy - yoffset * ZoomSensitivity
    ensures InZoomRange(fovy) && fovy - yoffset * ZoomSensitivity < MinZoom ==> r == MinZoom
    ensures InZoomRange(fovy) && MaxZoom < fovy - yoffset * ZoomSensitivity ==> r == MaxZoom
    ensures fovy < MinZoom ==> r == MinZoom
    ensures MaxZoom < fovy ==> r == MaxZoom
  {
    Clamp(if InZoomRange(fovy) then fovy - yoffset * ZoomSensitivity else fovy, MinZoom, MaxZoom)
  }

  /** `process_mouse_scroll`: zoom by field of view and refresh the projection. */
  function Scrolled(o: OrbitState, yoffset: real): (r: OrbitState)
    ensures r.camera.fovy == ScrolledFovy(o.camera.fovy, yoffset)
    ensures r.camera.projectedFovy == r.camera.fovy
    ensures r.camera.perspective == o.camera.perspective
    ensures r == o.(camera := r.camera)
  {
    o.(camera := UpdateProjectionMatrix(o.camera.(fovy := ScrolledFovy(o.camera.fovy, yoffset))))
  }

  class OrbitControls {
    const ext: Externals

    var camera: Camera
    var position: Vec3
    /** The point the camera orbits around. */
    var target: Vec3
    var state: NavState
    /** The committed position in spherical coordinates around the target. */
    var spherical: Spherical
    var sphericalDelta: Spherical
    var scale: real
    var panOffset: Vec3
    var rotateStart: Option<Vec2>
    var rotateEnd: Vec2
    var panStart: Option<Vec2>
    var panEnd: Vec2
    var screenWidth: real
    var screenHeight: real
    var offset: Vec3

    /** The value of every field. */
    function Value(): OrbitState
      reads this
    {
      OrbitState(camera, position, target, state, spherical, sphericalDelta, scale, panOffset,
                 rotateStart, rotateEnd, panStart, panEnd, screenWidth, screenHeight, offset)
    }

    constructor (ext: Externals, position: Vec3, screenWidth: real, screenHeight: real)
      ensures this.ext == ext
      ensures Value() == Initial(ext, position, screenWidth, screenHeight)
    {
      this.ext := ext;
      camera := ext.defaultCamera;
      this.position := position;
      target := Origin;
      state := NavState.None;
      spherical := ext.defaultSpherical;
      sphericalDelta := ext.defaultSpherical;
      scale := 1.0;
      panOffset := Origin;
      rotateStart := Math.None;
      rotateEnd := NoMotion;
      panStart := Math.None;
      panEnd := NoMotion;
      this.screenWidth := screenWidth;
      this.screenHeight := screenHeight;
      offset := Origin;
    }

    method HandleMouseMove(x: real, y: real) returns (outcome: Outcome)
      requires CanMove(Value())
      modifies this
      ensures outcome.Unimplemented? <==> PanUnsupported(old(Value()))
      ensures Value() == MouseMoved(ext, old(Value()), x, y)
    {
      outcome := Done;
      match state
      case Rotating => HandleMouseMoveRotate(x, y);
      case Panning => outcome := HandleMouseMovePan(x, y);
      case None =>
    }

    method HandleMouseMoveRotate(x: real, y: real)
      requires ScreenSized(Value())
      modifies this
      ensures Value() == MovedRotate(ext, old(Value()), x, y)
    {
      rotateEnd := rotateEnd.(x := x);
      rotateEnd := rotateEnd.(y := y);
      var rotateDelta := if rotateStart.Some? then Sub2(rotateEnd, rotateStart.value) else NoMotion;

      var angle := DragAngle(rotateDelta.x, screenWidth);
      RotateLeft(angle);

      angle := DragAngle(rotateDelta.y, screenHeight);
      RotateUp(angle);

      rotateStart := Some(rotateEnd);

      Update();
    }

    method HandleMouseUp()
      modifies this
      ensures Value() == MouseUp(old(Value()))
    {
      rotateStart := Math.None;
      panStart := Math.None;
    }

    method RotateLeft(angle: real)
      modifies this
      ensures Value() == RotatedLeft(old(Value()), angle)
    {
      sphericalDelta := sphericalDelta.(theta := sphericalDelta.theta - angle);
    }

    method RotateUp(angle: real)
      modifies this
      ensures Value() == RotatedUp(old(Value()), angle)
    {
      sphericalDelta := sphericalDelta.(phi := sphericalDelta.phi - angle);
    }

    method HandleMouseMovePan(x: real, y: real) returns (outcome: Outcome)
      requires camera.perspective ==> screenHeight != 0.0
      modifies this
      ensures outcome.Unimplemented? <==> !old(camera.perspective)
      ensures Value() == MovedPan(ext, old(Value()), x, y)
    {
      panEnd := panEnd.(x := x);
      panEnd := panEnd.(y := y);

      var panDelta := if panStart.Some? then Sub2(panEnd, panStart.value) else NoMotion;

      outcome := Pan(panDelta);
      if outcome.Unimplemented? {
        return;
      }

      panStart := Some(panEnd);

      Update();
    }

    method Pan(delta: Vec2) returns (outcome: Outcome)
      requires camera.perspective ==> screenHeight != 0.0
      modifies this
      ensures outcome.Unimplemented? <==> !old(camera.perspective)
      ensures old(camera.perspective) ==> Value() == Panned(ext, old(Value()), delta)
      ensures !old(camera.perspective) ==> Value() == old(Value())
    {
      if camera.perspective {
        offset := Sub(position, target);
        var targetDistance := ext.magnitude(offset);

        targetDistance := Foreshortened(targetDistance, ext.tan(camera.fovy / 2.0));

        var distance := PanDistance(delta.x, targetDistance, screenHeight);
        PanLeft(distance);
        distance := PanDistance(delta.y, targetDistance, screenHeight);
        PanUp(distance);
        outcome := Done;
      } else {
        outcome := Unimplemented("orthographic camera zoom");
      }
    }

    method PanLeft(distance: real)
      modifies this
      ensures Value() == PannedLeft(old(Value()), distance)
    {
      panOffset := panOffset.(x := panOffset.x - distance);
    }

    method PanUp(distance: real)
      modifies this
      ensures Value() == PannedUp(old(Value()), distance)
    {
      panOffset := panOffset.(y := panOffset.y - distance);
    }

    method ProcessMouseScroll(yoffset: real)
      modifies this
      ensures Value() == Scrolled(old(Value()), yoffset)
    {
      var yoffset := yoffset * ZoomSensitivity;
      if camera.fovy >= MinZoom && camera.fovy <= MaxZoom {
        camera := camera.(fovy := camera.fovy - yoffset);
      }
      if camera.fovy <= MinZoom {
        camera := camera.(fovy := MinZoom);
      }
      if camera.fovy >= MaxZoom {
        camera := camera.(fovy := MaxZoom);
      }
      camera := UpdateProjectionMatrix(camera);
    }

    method Update()
      modifies this
      ensures Value() == Updated(ext, old(Value()))
    {
      ghost var after := Updated(ext, Value());
      offset := Sub(position, target);

      var s := ext.fromVec3(offset);

      s := s.(theta := s.theta + sphericalDelta.theta);
      s := s.(phi := s.phi + sphericalDelta.phi);

      // restrict phi to be between the limits
      var epsilon := PolarEpsilon;
      s := s.(phi := Clamp(s.phi, epsilon, PI - epsilon));

      s := s.(radius := s.radius * scale);
      assert s == after.spherical;
      spherical := s;

      // move the target to the panned location
      target := Add(target, panOffset);

      offset := ext.toVec3(spherical);

      position := Add(target, offset);

      var d := sphericalDelta.(radius := 0.0);
      d := d.(phi := 0.0);
      d := d.(theta := 0.0);
      sphericalDelta := d;

      scale := 1.0;
      panOffset := Origin;
    }
  }
}
