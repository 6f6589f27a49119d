/** The collaborators of the controllers that live outside `src/controls.rs`: the
    `render::Camera` value and the numeric routines of `render::math` and cgmath whose
    bodies are not part of this model. Each routine is a parameter (a field of
    `Externals`), so every property proved here holds whatever those routines compute. */
module Render {
  import opened Math

  /** `render::Camera` as the controllers see it: the vertical field of view in
      degrees, the perspective flag that `is_perspective` reports, and the field of
      view that the cached projection matrix was last computed from. */
  datatype Camera = Camera(fovy: real, perspective: bool, projectedFovy: real)

  /** `Camera::update_projection_matrix`: the cached projection now reflects `fovy`. */
  function UpdateProjectionMatrix(c: Camera): Camera {
    c.(projectedFovy := c.fovy)
  }

  /** The routines and defaults the controllers call but do not define. */
  datatype Externals = Externals(
    /** `Camera::default()` */
    defaultCamera: Camera,
    /** `Spherical::default()` */
    defaultSpherical: Spherical,
    /** `Spherical::from_vec3` */
    fromVec3: Vec3 -> Spherical,
    /** `Spherical::to_vec3` */
    toVec3: Spherical -> Vec3,
    /** `magnitude` of a `Vector3` (a square root) */
    magnitude: Vec3 -> real,
    /** `normalize` of a `Vector3` */
    normalize: Vec3 -> Vec3,
    /** `cross` of two `Vector3`s */
    cross: (Vec3, Vec3) -> Vec3,
    /** `f32::tan`, `f32::sin`, `f32::cos`, all on radians */
    tan: real -> real,
    sin: real -> real,
    cos: real -> real)
}
