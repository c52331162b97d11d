/**
 * Value types shared by the scene and the renderer: vectors, per-object
 * extents, transform snapshots, orientations and GL primitive kinds.
 * Coordinates are `real`: the engine's float rounding is not modelled.
 */
module Geometry {

  datatype Option<T> = None | Some(value: T)

  datatype Vec3 = Vec3(x: real, y: real, z: real)

  /** Component-wise product of a vector by a scalar. */
  function Scaled(v: Vec3, factor: real): Vec3
  {
    Vec3(factor * v.x, factor * v.y, factor * v.z)
  }

  /**
   * An object's axis-aligned extents as the `Dimensions` collaborator reports
   * them: the corner "left, top, near" is (left, top, near), the corner
   * "right, bottom, far" is (right, bottom, far), plus the center.
   */
  datatype Dimensions = Dimensions(
    left: real, top: real, near: real,
    right: real, bottom: real, far: real,
    center: Vec3)

  /** The part of an object's transform that a rescale reads and writes. */
  datatype Transform = Transform(scale: Vec3, location: Vec3)

  /**
   * A rotation delta produced by a touch gesture. The quaternion itself is
   * not computed: only its axis source and angle are recorded.
   */
  datatype Rotation =
    | AboutCameraDirection(angle: real)
    | AboutDragAxis(dx: real, dy: real, angle: real)

  /**
   * An object's orientation, kept symbolic: the initial value, the fixed
   * 90-degree turn about the X axis applied to Blender models, or the
   * product of an orientation by a gesture rotation (in that order).
   */
  datatype Orientation =
    | Initial
    | XAxisQuarterTurn
    | Product(current: Orientation, delta: Rotation)

  /** The GL primitive an object is drawn with (its draw mode). */
  datatype Primitive = Points | Lines | LineStrip | LineLoop | Triangles | TriangleStrip | TriangleFan

  /** The primitives made of points or lines, for which no wireframe is built. */
  predicate IsPointOrLine(p: Primitive)
  {
    p == Points || p == Lines || p == LineStrip || p == LineLoop
  }
}
