/** Properties of the orbit controller over single calls and over any sequence of the
    calls a caller can make: the zoom range, the pole clamp and the resting accumulators
    are invariants of the whole controller, drags start still, update is idempotent
    once the spherical conversion round-trips, and a pan moves the camera rigidly. */
module OrbitProperties {
  import opened Math
  import opened Render
  import opened Orbit

  /** The calls a caller can make on an `OrbitControls`: its public methods, and
      writing its public `state` field when a mouse button goes down. Direct writes to
      the other public fields (`camera`, `position`, `target` and the screen sizes) are
      not events, so the invariants below hold between such writes only. */
  datatype Event =
    | MouseMove(x: real, y: real)
    | MouseRelease
    | Scroll(yoffset: real)
    | PanLeftBy(distance: real)
    | PanUpBy(distance: real)
    | Press(gesture: NavState)

  /** One call. */
  function Step(ext: Externals, o: OrbitState, e: Event): (r: OrbitState)
    requires ScreenSized(o)
    ensures ScreenSized(r)
    ensures r.screenWidth == o.screenWidth && r.screenHeight == o.screenHeight
  {
    match e
    case MouseMove(x, y) => MouseMoved(ext, o, x, y)
    case MouseRelease => MouseUp(o)
    case Scroll(yoffset) => Scrolled(o, yoffset)
    case PanLeftBy(distance) => PannedLeft(o, distance)
    case PanUpBy(distance) => PannedUp(o, distance)
    case Press(gesture) => o.(state := gesture)
  }

  /** A move that reaches the orthographic branch of `pan` panics: no later call runs. */
  predicate Panics(o: OrbitState, e: Event) {
    e.MouseMove? && PanUnsupported(o)
  }

  /** The state after a sequence of calls. */
  function Replay(ext: Externals, o: OrbitState, events: seq<Event>): OrbitState
    requires ScreenSized(o)
    decreases |events|
  {
    if events == [] then o
    else
      var next := Step(ext, o, events[0]);
      if Panics(o, events[0]) then next else Replay(ext, next, events[1..])
  }

  /** Once the field of view is inside the zoom range, no sequence of calls takes it out. */
  lemma {:induction false} ZoomStaysInRange(ext: Externals, o: OrbitState, events: seq<Event>)
    requires ScreenSized(o)
    requires InZoomRange(o.camera.fovy)
    ensures InZoomRange(Replay(ext, o, events).camera.fovy)
    decreases |events|
  {
    if events != [] && !Panics(o, events[0]) {
      ZoomStaysInRange(ext, Step(ext, o, events[0]), events[1..]);
    }
  }

  /** After a first scroll the field of view stays in the zoom range, whatever its start
      value and whatever follows. */
  lemma ScrollBringsZoomIntoRange(ext: Externals, o: OrbitState, yoffset: real, events: seq<Event>)
    requires ScreenSized(o)
    ensures InZoomRange(Replay(ext, o, [Scroll(yoffset)] + events).camera.fovy)
  {
    assert ([Scroll(yoffset)] + events)[1..] == events;
    ZoomStaysInRange(ext, Scrolled(o, yoffset), events);
  }

  /** Once the committed polar angle keeps off the poles, it does so forever. */
  lemma {:induction false} PoleClampPersists(ext: Externals, o: OrbitState, events: seq<Event>)
    requires ScreenSized(o)
    requires PolarClamped(o.spherical)
    ensures PolarClamped(Replay(ext, o, events).spherical)
    decreases |events|
  {
    if events != [] && !Panics(o, events[0]) {
      PoleClampPersists(ext, Step(ext, o, events[0]), events[1..]);
    }
  }

  /** No sequence of calls leaves a rotation or a radius change pending: only the pan
      offset can be left waiting, by `pan_left` and `pan_up`. */
  lemma {:induction false} RestPersists(ext: Externals, o: OrbitState, events: seq<Event>)
    requires ScreenSized(o)
    requires AtRest(o)
    ensures AtRest(Replay(ext, o, events))
    decreases |events|
  {
    if events != [] && !Panics(o, events[0]) {
      RestPersists(ext, Step(ext, o, events[0]), events[1..]);
    }
  }

  /** A new controller starts at rest when the default spherical triple has no angles. */
  lemma InitialIsAtRest(ext: Externals, position: Vec3, screenWidth: real, screenHeight: real)
    requires ext.defaultSpherical.phi == 0.0 && ext.defaultSpherical.theta == 0.0
    ensures AtRest(Initial(ext, position, screenWidth, screenHeight))
  {
  }

  /** The first sample of a drag moves nothing: it commits exactly what a bare `update`
      would, and records the pointer as the anchor. */
  lemma FirstSampleIsStill(ext: Externals, o: OrbitState, x: real, y: real)
    requires ScreenSized(o)
    requires o.state == Rotating && o.rotateStart.None?
    ensures MouseMoved(ext, o, x, y)
            == Updated(ext, o).(rotateStart := Some(Vec2(x, y)), rotateEnd := Vec2(x, y))
  {
    var end := Vec2(x, y);
    var o1 := RotatedLeft(o.(rotateEnd := end), DragAngle(NoMotion.x, o.screenWidth));
    var o2 := RotatedUp(o1, DragAngle(NoMotion.y, o.screenHeight));
    assert o2.(rotateStart := Some(end)) == o.(rotateEnd := end, rotateStart := Some(end));
    UpdateIgnoresScratch(ext, o, Some(end), end, o.panStart, o.panEnd, o.offset);
  }

  lemma FirstPanSampleIsStill(ext: Externals, o: OrbitState, x: real, y: real)
    requires ScreenSized(o)
    requires o.state == Panning && o.camera.perspective && o.panStart.None?
    ensures MouseMoved(ext, o, x, y)
            == Updated(ext, o).(panStart := Some(Vec2(x, y)), panEnd := Vec2(x, y))
  {
    var end := Vec2(x, y);
    var o1 := o.(panEnd := end);
    var distance := TargetDistance(ext, o1);
    var o2 := PannedLeft(o1.(offset := Sub(o.position, o.target)), PanDistance(NoMotion.x, distance, o.screenHeight));
    var o3 := PannedUp(o2, PanDistance(NoMotion.y, distance, o.screenHeight));
    assert o3.(panStart := Some(end)) == o.(panEnd := end, panStart := Some(end), offset := Sub(o.position, o.target));
    UpdateIgnoresScratch(ext, o, o.rotateStart, o.rotateEnd, Some(end), end, Sub(o.position, o.target));
  }

  /** `update` does not read the drag anchors, the pointer samples or the scratch
      offset, and writes no anchor or sample. */
  lemma UpdateIgnoresScratch(ext: Externals, o: OrbitState, rs: Option<Vec2>, re: Vec2,
                             ps: Option<Vec2>, pe: Vec2, offset: Vec3)
    ensures Updated(ext, o.(rotateStart := rs, rotateEnd := re, panStart := ps, panEnd := pe, offset := offset))
            == Updated(ext, o).(rotateStart := rs, rotateEnd := re, panStart := ps, panEnd := pe)
  {
    var o' := o.(rotateStart := rs, rotateEnd := re, panStart := ps, panEnd := pe, offset := offset);
    assert Updated(ext, o').spherical == Updated(ext, o).spherical;
    assert Updated(ext, o').position == Updated(ext, o).position;
  }

  /** After `handle_mouse_up` the next drag sample cannot jump from a stale anchor. */
  lemma ReleasedDragStartsStill(ext: Externals, o: OrbitState, x: real, y: real)
    requires ScreenSized(o)
    requires o.state == Rotating || (o.state == Panning && o.camera.perspective)
    ensures var r := MouseMoved(ext, MouseUp(o), x, y);
            && r.position == Updated(ext, o).position
            && r.target == Updated(ext, o).target
            && r.spherical == Updated(ext, o).spherical
  {
    assert MouseUp(o) == o.(rotateStart := Math.None, rotateEnd := o.rotateEnd,
                            panStart := Math.None, panEnd := o.panEnd, offset := o.offset);
    UpdateIgnoresScratch(ext, o, Math.None, o.rotateEnd, Math.None, o.panEnd, o.offset);
    if o.state == Rotating {
      FirstSampleIsStill(ext, MouseUp(o), x, y);
    } else {
      FirstPanSampleIsStill(ext, MouseUp(o), x, y);
    }
  }

  /** A rotating drag sample from anchor `a` turns the azimuth by 2 pi times the fraction of
      the screen width the pointer moved, and the polar angle likewise by height, clamped. */
  lemma DragRotatesProportionally(ext: Externals, o: OrbitState, a: Vec2, x: real, y: real)
    requires ScreenSized(o) && AtRest(o)
    requires o.state == Rotating && o.rotateStart == Some(a)
    ensures var s := ext.fromVec3(Sub(o.position, o.target));
            var r := MouseMoved(ext, o, x, y);
            && r.spherical.theta == s.theta - 2.0 * PI * (x - a.x) / o.screenWidth
            && r.spherical.phi
               == Clamp(s.phi - 2.0 * PI * (y - a.y) / o.screenHeight, PolarEpsilon, PI - PolarEpsilon)
            && r.spherical.radius == s.radius
  {
  }

  /** A drag across 80 of 800 pixels turns the azimuth by a tenth of a full turn. */
  lemma RotateScenario(ext: Externals, o: OrbitState)
    requires o.state == Rotating && o.rotateStart.None? && AtRest(o)
    requires o.screenWidth == 800.0 && o.screenHeight == 600.0
    ensures var o1 := MouseMoved(ext, o, 0.0, 0.0);
            var o2 := MouseMoved(ext, o1, 80.0, 0.0);
            var s := ext.fromVec3(Sub(o1.position, o1.target));
            && o2.spherical.theta == s.theta - PI / 5.0
            && o2.spherical.radius == s.radius
  {
    var o1 := MouseMoved(ext, o, 0.0, 0.0);
    DragRotatesProportionally(ext, o1, Vec2(0.0, 0.0), 80.0, 0.0);
  }

  /** `update` is idempotent once the committed spherical triple survives a round trip
      through Cartesian coordinates: an update with nothing pending changes nothing. */
  lemma UpdateIsIdempotent(ext: Externals, o: OrbitState)
    requires ext.fromVec3(ext.toVec3(Updated(ext, o).spherical)) == Updated(ext, o).spherical
    ensures Updated(ext, Updated(ext, o)) == Updated(ext, o)
  {
  }

  /** With nothing pending and an offset that survives a round trip through spherical
      coordinates away from the poles, a pan sample moves the target and the camera by
      the same vector: the offset between them is kept. */
  lemma PanIsRigid(ext: Externals, o: OrbitState, x: real, y: real)
    requires ScreenSized(o) && Settled(o)
    requires o.state == Panning && o.camera.perspective
    requires PolarClamped(ext.fromVec3(Sub(o.position, o.target)))
    requires ext.toVec3(ext.fromVec3(Sub(o.position, o.target))) == Sub(o.position, o.target)
    ensures var r := MouseMoved(ext, o, x, y);
            && Sub(r.position, r.target) == Sub(o.position, o.target)
            && Sub(r.target, o.target) == Sub(r.position, o.position)
  {
  }
}
