/**
 * The heap entities the scene and the renderer share: drawable objects and
 * the camera. Only the attributes the engine reads or writes are kept; what
 * the unseen collaborators compute from an object (its current extents, its
 * drawer, whether it has normals) is held as a field they are taken to report.
 */
module SceneObjects {
  import opened Geometry

  /** A sub-mesh material: its raw texture bytes (by array identity) and its GL texture name. */
  datatype Element = Element(hasMaterial: bool, textureData: array?<bv8>, textureId: int)

  class Object3D {
    const id: string
    const visible: bool
    /** The dirty flag: set when the object changed since its derived geometry was built. */
    var changed: bool
    const drawMode: Primitive
    var solid: bool
    var centered: bool
    var scale: Vec3
    var location: Vec3
    var orientation: Orientation
    var authoringTool: Option<string>
    /** The extents `getCurrentDimensions()` reports. */
    var dimensions: Dimensions
    /** The object's own texture bytes and its material's GL texture name. */
    var textureData: array?<bv8>
    var textureId: int
    /** `getElements()`: absent, or a list of sub-meshes with their materials. */
    var hasElements: bool
    var elements: seq<Element>
    /** An animated model whose animation is present (the skeleton branch applies). */
    const animated: bool
    /** Whether `Normals.build` yields geometry for this object (it does not for non-triangle meshes). */
    var hasNormals: bool
    /** Whether the drawer factory has a drawer for this object. */
    const hasDrawer: bool

    constructor (id: string, drawMode: Primitive, dimensions: Dimensions, transform: Transform)
      ensures this.id == id && this.drawMode == drawMode && this.dimensions == dimensions
      ensures scale == transform.scale && location == transform.location
      ensures visible && changed && solid && !centered && hasDrawer
      ensures orientation == Initial && authoringTool == None
      ensures textureData == null && !hasElements && !animated && !hasNormals
    {
      this.id := id;
      this.drawMode := drawMode;
      this.dimensions := dimensions;
      scale := transform.scale;
      location := transform.location;
      visible := true;
      changed := true;
      solid := true;
      centered := false;
      orientation := Initial;
      authoringTool := None;
      textureData := null;
      textureId := -1;
      hasElements := false;
      elements := [];
      animated := false;
      hasNormals := false;
      hasDrawer := true;
    }

    /** `getTransform()`: a snapshot of scale and location. */
    function TransformOf(): (t: Transform)
      reads this
      ensures t.scale == scale && t.location == location
    {
      Transform(scale, location)
    }
  }

  /**
   * The camera, reduced to what the engine core reads and writes: the
   * "changed" flag that forces the view matrix to be recomputed, and the
   * number of automatic orbit steps taken while the user has not interacted.
   */
  class Camera {
    var changed: bool
    var orbitSteps: nat

    constructor ()
      ensures !changed && orbitSteps == 0
    {
      changed := false;
      orbitSteps := 0;
    }

    /** Marks the view matrix for recomputation (or clears the mark). */
    method SetChanged(changed: bool)
      modifies this`changed
      ensures this.changed == changed
    {
      this.changed := changed;
    }
  }
}
