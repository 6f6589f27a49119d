# Camera controls of gltf-viewer, modelled in Dafny

The gltf-viewer has two camera controllers, both in `src/controls.rs`.

- `OrbitControls` orbits a target point. Its gesture machine (`None`, `Rotating`,
  `Panning`) dispatches mouse moves. A rotate drag fills the pending rotation
  (`spherical_delta`) and a pan drag fills the pending pan (`pan_offset`), each measured
  from an optional drag anchor. Every sample then calls `update`. `update` recomputes
  the spherical coordinates of the camera around the target, applies the pending
  rotation, clamps the polar angle to `[1e-4, pi - 1e-4]`, moves the target by the
  pending pan, places the camera, and resets every accumulator. The scroll wheel zooms
  by changing the field of view, kept within `[1, 170]` degrees.
- `CameraControls` is a free-fly camera. Four movement flags move it along its front
  and right vectors. Mouse movement turns it by yaw and pitch, with the pitch optionally
  kept within 89 degrees of the horizon. `set_camera` attaches it to a scene node's
  camera through a pending look target (`center`) that `update_camera_vectors` consumes.

Files:

- `math.dfy`: vectors, spherical triples and the clamp.
- `render.dfy`: the `render::Camera` value and the routines the controllers call but do
  not define. These are `Spherical::from_vec3`/`to_vec3`, `magnitude`, `normalize`,
  `cross`, `tan`, `sin`, `cos` and the two defaults. They are fields of an `Externals`
  value, so every property holds whatever those routines compute.
- `orbit.dfy`: the orbit controller. The functions over `OrbitState` describe each
  operation on the whole state. The class `OrbitControls` updates its fields step by
  step as the source does, and each method is proved to reach the state its function
  describes.
- `orbit_properties.dfy`: properties of the orbit controller over single calls and over
  any sequence of calls.
- `free_fly.dfy`: the free-fly controller, as a class with the same fields as the source.

Every `f32` is a `real`.

## Model

| member | source | states |
|---|---|---|
| Math.Clamp | src/controls.rs:417 | the result lies in `[lo, hi]`; it equals `x` inside the range and the nearer bound outside it |
| Math.ClampIsNearest | src/controls.rs:417 | the clamped value is the point of `[lo, hi]` nearest to `x` |
| Orbit.Initial | src/controls.rs:249-284 | a new controller is idle, has no drag anchors, unit scale, no pending pan, targets the origin, sits at the given position, stores the given screen width and height, and holds the default camera and `Spherical::default()` for both the committed and the pending triple |
| Orbit.Updated | src/controls.rs:401-448 | after `update` the accumulators are reset (zero rotation, unit scale, zero pan); phi is `from_vec3(position - target).phi + delta.phi` clamped to `[1e-4, pi - 1e-4]`; theta gains `delta.theta`; the radius is multiplied by `scale`; the target moves by the old pan offset; `offset == to_vec3(spherical) == position - target`; no other field changes |
| Orbit.DragDelta | src/controls.rs:310-314 | with no anchor the delta is zero; otherwise the anchor plus the delta is the pointer |
| Orbit.MouseMoved | src/controls.rs:299-305 | a move never changes the gesture, the camera or the screen size; in `None` it changes nothing; a rotating move settles every accumulator, keeps phi off the poles and leaves the rotate anchor at the pointer; a perspective pan move does the same with the pan anchor; an orthographic pan move records only the pointer |
| Orbit.MouseUp | src/controls.rs:330-333 | both anchors become `None` and every other field is unchanged |
| Orbit.ScrolledFovy | src/controls.rs:387-397 | the field of view always ends in `[1, 170]`; from inside that range it moves by `0.1 * yoffset`, and a scroll that would overshoot lands exactly on 1 or 170; from below or above the range it is pinned to the nearer bound |
| Orbit.Scrolled | src/controls.rs:387-399 | a scroll changes only the camera: its field of view becomes the scrolled one, and the cached projection is refreshed to it |
| Orbit.OrbitControls.constructor | src/controls.rs:249-284 | the fields hold the initial state |
| Orbit.OrbitControls.HandleMouseMove | src/controls.rs:299-305 | the new fields are the moved state; the move fails exactly when it pans an orthographic camera |
| Orbit.OrbitControls.HandleMouseMoveRotate | src/controls.rs:307-328 | the new fields are the rotated-then-updated state |
| Orbit.OrbitControls.HandleMouseUp | src/controls.rs:330-333 | the new fields are the released state |
| Orbit.OrbitControls.RotateLeft | src/controls.rs:335-337 | only the pending azimuth changes, decreased by the angle |
| Orbit.OrbitControls.RotateUp | src/controls.rs:339-341 | only the pending polar angle changes, decreased by the angle |
| Orbit.OrbitControls.HandleMouseMovePan | src/controls.rs:343-358 | the new fields are the panned-then-updated state; for an orthographic camera it fails after recording the pointer |
| Orbit.OrbitControls.Pan | src/controls.rs:360-376 | it fails exactly for an orthographic camera and then changes nothing; otherwise the pan offset moves by `2 * delta * distance / screen_height` per axis, with `distance = magnitude(offset) * tan(fovy / 2) * pi / 180` |
| Orbit.OrbitControls.PanLeft | src/controls.rs:378-380 | only the pending pan's x decreases, by the distance |
| Orbit.OrbitControls.PanUp | src/controls.rs:382-384 | only the pending pan's y decreases, by the distance |
| Orbit.OrbitControls.ProcessMouseScroll | src/controls.rs:387-399 | the new fields are the scrolled state |
| Orbit.OrbitControls.Update | src/controls.rs:401-448 | the new fields are the updated state |
| OrbitProperties.Step | src/controls.rs:299-384 | no call changes the screen width or height |
| OrbitProperties.ZoomStaysInRange | src/controls.rs:387-399 | once the field of view is in `[1, 170]`, no sequence of calls takes it out |
| OrbitProperties.ScrollBringsZoomIntoRange | src/controls.rs:387-399 | after one scroll the field of view stays in `[1, 170]` whatever its start value and whatever follows |
| OrbitProperties.PoleClampPersists | src/controls.rs:415-417 | once phi keeps off the poles, every sequence of calls keeps it off them |
| OrbitProperties.RestPersists | src/controls.rs:438-442 | no sequence of calls leaves a rotation or radius change pending |
| OrbitProperties.InitialIsAtRest | src/controls.rs:259-262 | a new controller has nothing pending when the default spherical triple has no angles |
| OrbitProperties.FirstSampleIsStill | src/controls.rs:310-314 | the first rotate sample of a drag commits exactly what a bare `update` would, and anchors the drag at the pointer |
| OrbitProperties.FirstPanSampleIsStill | src/controls.rs:347-351 | the first pan sample of a drag commits exactly what a bare `update` would, and anchors the drag at the pointer |
| OrbitProperties.UpdateIgnoresScratch | src/controls.rs:401-448 | `update` neither reads nor writes the anchors and pointer samples, and does not read the old `offset` |
| OrbitProperties.ReleasedDragStartsStill | src/controls.rs:330-333 | after a mouse-up the next drag sample cannot jump from a stale anchor |
| OrbitProperties.DragRotatesProportionally | src/controls.rs:316-323 | a rotate sample turns theta by `2 pi` times the share of the screen width moved, and phi likewise by height, clamped |
| OrbitProperties.RotateScenario | src/controls.rs:316-318 | on an 800 by 600 screen a drag of 80 pixels turns theta by `pi / 5` |
| OrbitProperties.UpdateIsIdempotent | src/controls.rs:401-448 | a second `update` changes nothing, when the committed triple survives a round trip through Cartesian coordinates |
| OrbitProperties.PanIsRigid | src/controls.rs:360-376 | with nothing pending and an offset that round-trips away from the poles, a pan sample moves target and camera by the same vector |
| FreeFly.SteppedIsNet | src/controls.rs:120-131 | the chain of four `if`s adds each held key's step once: the forward step times (forward - backward) plus the sideways step times (right - left) |
| FreeFly.IntegratedIsDisplacement | src/controls.rs:118-132 | the key-by-key update moves the camera by the net displacement: front times (forward - backward), right times (right - left) |
| FreeFly.OppositeKeysCancel | src/controls.rs:118-132 | with all four keys held the camera does not move |
| FreeFly.DiagonalIsFaster | src/controls.rs:118-132 | with orthonormal front and right, forward plus right moves `sqrt 2` times as far as forward alone |
| FreeFly.PitchAfter | src/controls.rs:144-159 | with the constraint the pitch ends in `[-89, 89]` and is the turned pitch saturated there; without it the pitch is just turned |
| FreeFly.CameraOriginAsWritten | src/controls.rs:187 | the zero vector transformed is the origin, whatever the transform |
| FreeFly.LookTargetAsWritten | src/controls.rs:190 | the look target as written is the node's -Z axis taken as a direction |
| FreeFly.CameraOrigin | src/controls.rs:187 | the transformed origin point is the transform's translation column |
| FreeFly.LookTarget | src/controls.rs:190 | the look target is one unit down the node's local -Z axis from its origin |
| FreeFly.TranslatedNodeCamera | src/controls.rs:185-193 | for a node at (1, 2, 3) the written code puts the camera at the origin (and computes the pending look target (0, 0, -1)) |
| FreeFly.CameraFollowsTranslation | src/controls.rs:185-193 | with the corrected placement, the camera of any translated node sits at the translation, and the pending look target is one unit down -Z from it |
| FreeFly.CameraControls.Default | src/controls.rs:70-97 | the default fields (origin, yaw -90, pitch 0, speed 2.5, sensitivity 0.1, no key held, world up +Y), with the basis computed and no pending look target |
| FreeFly.CameraControls.Update | src/controls.rs:118-132 | only the position changes: each held key adds its full step along its own axis, with velocity `movement_speed * delta_time` |
| FreeFly.CameraControls.ProcessKeyboard | src/controls.rs:134-141 | exactly the flag named by the direction becomes `pressed`; the other three keep their values |
| FreeFly.CameraControls.ProcessMouseMovement | src/controls.rs:144-163 | yaw turns by `xoffset * sensitivity`; pitch is `PitchAfter`, so with the constraint it ends in `[-89, 89]`; the basis follows yaw and pitch and `center` is `None` |
| FreeFly.CameraControls.UpdateCameraVectors | src/controls.rs:168-183 | `center` ends `None`; front, right and up are recomputed from yaw and pitch alone, so a pending look target has no lasting effect |
| FreeFly.CameraControls.SetCamera | src/controls.rs:185-201 | the position becomes the transformed zero vector, as written, which is the origin for every transform (see Findings); the camera is taken over except for the controller's own field of view; `center` ends `None`, and the basis follows yaw and pitch alone |

## Left out

- `camera_params` and both `view_matrix` methods are left out. They only package `look_at` and projection matrices, which come from foreign code.
- The `render` module is not part of this model: `Camera::default`, `is_perspective`, `update_projection_matrix`, `Spherical::default`, `from_vec3`, `to_vec3`. The defaults, the spherical conversions and cgmath's `magnitude`, `normalize` and `cross` are parameters. `is_perspective` is a boolean field of the camera. The projection matrix is abstracted to the field of view it was last computed from.
- IEEE `f32` rounding, infinities and NaN are not modelled. `std::f32::consts::PI` is the exact value of that `f32`.
- Orbit.MouseMoved: requires a non-zero screen width and height for a rotating move, and a non-zero screen height for a perspective pan, because those moves divide by them and an IEEE division by zero yields an infinity, which a `real` has no value for. An idle move and an orthographic pan demand nothing. The functions and methods it calls require the same.
- OrbitProperties.Replay: sequences of calls start from a controller whose screen width and height are both non-zero.
- The `unimplemented!` panic of `pan` for an orthographic camera is the `Unimplemented` outcome. Nothing of the move runs after it, and a sequence of calls ends there.
- `last_position`, `last_quaternion` and the constant `rotate_speed` (1.0) are unused by the modelled code and left out. `ZOOM` (45) is not read in this file.
- The pressing of a mouse button is modelled as the caller writing the public `state` field. Direct writes to the other public fields (`camera`, `position`, `target`, `screen_width`, `screen_height`) are not modelled as calls, so the properties over sequences of calls hold between such writes only.
- FreeFly.CameraControls.Update: the `f64` to `f32` conversion of `delta_time` is not modelled.
- FreeFly: the numbers inside the front, right and up vectors are not modelled, because `sin`, `cos`, `normalize` and `cross` are parameters. The contracts say from which values each vector is computed.

## Findings

| source | as written | input that shows it | evidently intended | confidence | as-written member | corrected member |
|---|---|---|---|---|---|---|
| src/controls.rs:187-190 | `set_camera` multiplies the node transform by `Vector4::zero()` to place the camera. With `w = 0` the translation is dropped, so the camera sits at the world origin whatever the node's position. (The look target is computed with `w = 0` too, but `update_camera_vectors` overwrites the front it sets, so only the position is observable.) | a node translated to (1, 2, 3): the camera lands at (0, 0, 0) | transform the origin with `w = 1`, so the camera sits at the node's origin (1, 2, 3) | not executed | FreeFly.TranslatedNodeCamera | FreeFly.CameraFollowsTranslation |
