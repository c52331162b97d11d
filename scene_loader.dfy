/**
 * The scene loader: the object lists, the display-mode fields, the selection,
 * the load lifecycle and the rescale that fits loaded models to the viewport.
 *
 * Each toggle method is proved to move the display fields as the matching
 * function of `DisplayModes` does, and `Rescale` is proved to fill the caches
 * and set the transforms as the functions of `Rescaling` say.
 */
module Scene {
  import opened Geometry
  import opened SceneObjects
  import DisplayModes
  import Rescaling
  import LoaderDispatch

  /** A call `animator.update(obj, bindPose)` to the unseen animator. */
  datatype AnimatorUpdate = AnimatorUpdate(obj: Object3D, bindPose: bool)

  /** The gesture kinds of a touch event that the scene reacts to. */
  datatype TouchAction = Rotate | Move | OtherAction

  /** What a collision event ends with: handled, or the null dereference when nothing was hit while something is selected. */
  datatype CollisionOutcome = Handled | NullHit

  /** What `loadTexture` ends with. */
  datatype TextureOutcome = Unavailable | ReadFailed | Loaded(target: Object3D)

  /** The animator calls for one pass over `objs`. */
  function AnimatorUpdates(objs: seq<Object3D>, bindPose: bool): (r: seq<AnimatorUpdate>)
  {
    seq(|objs|, i requires 0 <= i < |objs| => AnimatorUpdate(objs[i], bindPose))
  }

  /**
   * The selection after a collision with `hit` while `current` is selected:
   * `None` when the source dereferences a null hit, otherwise the new selection.
   */
  function SelectionAfter(current: Object3D?, hit: Object3D?): (r: Option<Object3D?>)
    ensures r == Some(null) <==> current == hit
    ensures hit != null ==> (r == Some(hit) <==> current != hit)
    ensures r.None? <==> current != hit && hit == null
  {
    if current == hit then Some(null)
    else if hit == null then None
    else Some(hit)
  }

  /** The light bulb's rotation about Y, in degrees: a full turn every 5000 ms of uptime. */
  function LightAngle(uptime: nat): (r: real)
    ensures 0.0 <= r < 360.0
  {
    (360.0 / 5000.0) * ((uptime % 5000) as real)
  }

  /** The current extents of each object, in list order. */
  function DimensionsOf(datas: seq<Object3D>): (r: seq<Dimensions>)
    reads set o | o in datas
  {
    seq(|datas|, i reads datas requires 0 <= i < |datas| => datas[i].dimensions)
  }

  /** The current transform of each object, in list order. */
  function TransformsOf(datas: seq<Object3D>): (r: seq<Transform>)
    reads set o | o in datas
  {
    seq(|datas|, i reads datas requires 0 <= i < |datas| => Transform(datas[i].scale, datas[i].location))
  }

  /** `o` sits at its cached original transform times `factor`. */
  predicate AtOriginalTimes(o: Object3D, cache: map<Object3D, Transform>, factor: real)
    reads o
  {
    o in cache && o.scale == Scaled(cache[o].scale, factor) && o.location == Scaled(cache[o].location, factor)
  }

  class SceneLoader {
    /** The model locator and type code given at construction. */
    const uri: Option<string>
    const typeCode: int
    const camera: Camera

    var objects: seq<Object3D>
    var guiObjects: seq<Object3D>
    var isFixCoordinateSystem: bool

    var drawwMode: int
    var drawWireframe: bool
    var drawPoints: bool
    var drawSkeleton: bool
    var drawNormals: bool
    var drawBoundingBox: bool
    var drawTextures: bool
    var drawColors: bool
    var drawLighting: bool
    var rotatingLight: bool
    var doAnimation: bool
    var showBindPose: bool
    var isCollision: bool
    var isStereoscopic: bool
    var isAnaglyph: bool
    var isVRGlasses: bool
    var isBlendingEnabled: bool
    var isBlendingForced: bool

    var selectedObject: Object3D?
    var userHasInteracted: bool
    /** The light bulb's Y rotation, in degrees. */
    var lightRotation: real

    /** The originals cached by object identity before the first rescale touches an object. */
    var originalDimensions: map<Object3D, Dimensions>
    var originalTransforms: map<Object3D, Transform>

    /** Every `SelectedObjectEvent` fired, with the selection it carries. */
    var selectionEvents: seq<Object3D?>
    /** Every call made to the animator. */
    var animatorUpdates: seq<AnimatorUpdate>
    /** The parser `init` launched, if any. */
    var launched: Option<LoaderDispatch.Loader>

    // The display fields, group by group, as values.

    function Wire(): DisplayModes.WireGroup
      reads this`drawwMode, this`drawWireframe, this`drawPoints, this`drawSkeleton, this`drawNormals
    {
      DisplayModes.WireGroup(drawwMode, drawWireframe, drawPoints, drawSkeleton, drawNormals)
    }

    function Textures(): DisplayModes.TextureGroup
      reads this`drawTextures, this`drawColors
    {
      DisplayModes.TextureGroup(drawTextures, drawColors)
    }

    function Lighting(): DisplayModes.LightGroup
      reads this`drawLighting, this`rotatingLight
    {
      DisplayModes.LightGroup(drawLighting, rotatingLight)
    }

    function Animation(): DisplayModes.AnimationGroup
      reads this`doAnimation, this`showBindPose
    {
      DisplayModes.AnimationGroup(doAnimation, showBindPose)
    }

    function Stereo(): DisplayModes.StereoGroup
      reads this`isStereoscopic, this`isAnaglyph, this`isVRGlasses
    {
      DisplayModes.StereoGroup(isStereoscopic, isAnaglyph, isVRGlasses)
    }

    function Blending(): DisplayModes.BlendGroup
      reads this`isBlendingEnabled, this`isBlendingForced
    {
      DisplayModes.BlendGroup(isBlendingEnabled, isBlendingForced)
    }

    /** All display fields, as one value. */
    function Flags(): DisplayModes.Flags
      reads this`drawwMode, this`drawWireframe, this`drawPoints, this`drawSkeleton, this`drawNormals, this`drawBoundingBox, this`drawTextures, this`drawColors, this`drawLighting
      reads this`rotatingLight, this`doAnimation, this`showBindPose, this`isCollision, this`isStereoscopic, this`isAnaglyph, this`isVRGlasses, this`isBlendingEnabled, this`isBlendingForced
    {
      DisplayModes.Flags(Wire(), drawBoundingBox, Textures(), Lighting(), Animation(), isCollision, Stereo(), Blending())
    }

    /** The display fields are consistent with one another. */
    predicate Valid()
      reads this
    {
      DisplayModes.Inv(Flags())
    }

    constructor (uri: Option<string>, typeCode: int)
      ensures this.uri == uri && this.typeCode == typeCode
      ensures Flags() == DisplayModes.Default && Valid()
      ensures objects == [] && guiObjects == [] && selectedObject == null
      ensures !userHasInteracted && !isFixCoordinateSystem
      ensures originalDimensions == map[] && originalTransforms == map[]
      ensures selectionEvents == [] && animatorUpdates == [] && launched == None
      ensures fresh(camera) && !camera.changed
    {
      this.uri := uri;
      this.typeCode := typeCode;
      camera := new Camera();
      objects := [];
      guiObjects := [];
      isFixCoordinateSystem := false;
      isBlendingEnabled := true;
      isBlendingForced := false;
      drawwMode := 0;
      drawWireframe := false;
      drawPoints := false;
      drawBoundingBox := false;
      drawNormals := false;
      drawTextures := true;
      drawColors := true;
      rotatingLight := true;
      drawLighting := true;
      doAnimation := true;
      showBindPose := false;
      drawSkeleton := false;
      isCollision := false;
      isStereoscopic := false;
      isAnaglyph := false;
      isVRGlasses := false;
      selectedObject := null;
      userHasInteracted := false;
      lightRotation := 0.0;
      originalDimensions := map[];
      originalTransforms := map[];
      selectionEvents := [];
      animatorUpdates := [];
      launched := None;
      new;
      DisplayModes.DefaultIsConsistent();
    }

    /** Forces the first camera update and launches the parser the locator calls for. */
    method Init()
      modifies camera`changed, this`launched
      ensures camera.changed
      ensures launched == (if uri.None? then old(launched) else LoaderDispatch.ChooseLoader(uri, typeCode))
    {
      camera.changed := true;
      if uri.None? {
        return;
      }
      launched := LoaderDispatch.ChooseLoader(uri, typeCode);
    }

    // ------------------------------------------------------------ toggles

    /** Stores the wireframe group's five fields. */
    method SetWire(g: DisplayModes.WireGroup)
      modifies this`drawwMode, this`drawWireframe, this`drawPoints, this`drawSkeleton, this`drawNormals
      ensures Flags() == old(Flags()).(wire := g)
    {
      drawwMode, drawWireframe, drawPoints, drawSkeleton, drawNormals := g.drawwMode, g.drawWireframe, g.drawPoints, g.drawSkeleton, g.drawNormals;
    }

    /**
     * Steps the mode counter modulo 4, clears the four flags and switches on
     * the one of the new mode; the source's fifth "normals" case (wireframe
     * and normals) is kept, although the counter never reaches it.
     */
    method ToggleWireframe()
      modifies this`drawwMode, this`drawWireframe, this`drawPoints, this`drawSkeleton, this`drawNormals
      ensures Flags() == DisplayModes.Apply(old(Flags()), DisplayModes.ToggleWireframe)
      ensures old(Valid()) ==> Valid()
    {
      var mode := DisplayModes.JavaRem(drawwMode + 1, DisplayModes.WireframeModulus);
      SetWire(DisplayModes.WireGroup(mode, mode == 1 || mode == 4, mode == 2, mode == 3, mode == 4));
    }

    method ToggleBoundingBox()
      modifies this`drawBoundingBox
      ensures Flags() == DisplayModes.Apply(old(Flags()), DisplayModes.ToggleBoundingBox)
      ensures old(Valid()) ==> Valid()
    {
      drawBoundingBox := !drawBoundingBox;
    }

    method ToggleTextures()
      modifies this`drawTextures, this`drawColors
      ensures Flags() == DisplayModes.Apply(old(Flags()), DisplayModes.ToggleTextures)
      ensures old(Valid()) ==> Valid()
    {
      if drawTextures && drawColors {
        drawTextures := false;
        drawColors := true;
      } else if drawColors {
        drawTextures := false;
        drawColors := false;
      } else {
        drawTextures := true;
        drawColors := true;
      }
    }

    method ToggleLighting()
      modifies this`drawLighting, this`rotatingLight
      ensures Flags() == DisplayModes.Apply(old(Flags()), DisplayModes.ToggleLighting)
      ensures old(Valid()) ==> Valid()
    {
      if drawLighting && rotatingLight {
        rotatingLight := false;
      } else if drawLighting && !rotatingLight {
        drawLighting := false;
      } else {
        drawLighting := true;
        rotatingLight := true;
      }
    }

    method ToggleAnimation()
      modifies this`doAnimation, this`showBindPose
      ensures Flags() == DisplayModes.Apply(old(Flags()), DisplayModes.ToggleAnimation)
      ensures old(Valid()) ==> Valid()
    {
      if !doAnimation {
        doAnimation := true;
        showBindPose := false;
      } else {
        doAnimation := false;
        showBindPose := true;
      }
    }

    method ToggleCollision()
      modifies this`isCollision
      ensures Flags() == DisplayModes.Apply(old(Flags()), DisplayModes.ToggleCollision)
      ensures old(Valid()) ==> Valid()
    {
      isCollision := !isCollision;
    }

    /** Also forces a camera update, and entering VR glasses restarts the automatic orbit. */
    method ToggleStereoscopic()
      modifies this`isStereoscopic, this`isAnaglyph, this`isVRGlasses, this`userHasInteracted, camera`changed
      ensures Flags() == DisplayModes.Apply(old(Flags()), DisplayModes.ToggleStereoscopic)
      ensures old(Valid()) ==> Valid()
      ensures camera.changed
      ensures userHasInteracted == (if old(isStereoscopic && isAnaglyph) then false else old(userHasInteracted))
    {
      var enteringGlasses := isStereoscopic && isAnaglyph;
      StepStereoscopic();
      if enteringGlasses {
        userHasInteracted := false;
      }
      camera.SetChanged(true);
    }

    /** The stereoscopy cycle itself: off, anaglyph, VR glasses. */
    method StepStereoscopic()
      modifies this`isStereoscopic, this`isAnaglyph, this`isVRGlasses
      ensures Flags() == DisplayModes.Apply(old(Flags()), DisplayModes.ToggleStereoscopic)
      ensures old(Valid()) ==> Valid()
    {
      if !isStereoscopic {
        isStereoscopic := true;
        isAnaglyph := true;
        isVRGlasses := false;
      } else if isAnaglyph {
        isAnaglyph := false;
        isVRGlasses := true;
      } else {
        isStereoscopic := false;
        isAnaglyph := false;
        isVRGlasses := false;
      }
    }

    method ToggleBlending()
      modifies this`isBlendingEnabled, this`isBlendingForced
      ensures Flags() == DisplayModes.Apply(old(Flags()), DisplayModes.ToggleBlending)
      ensures old(Valid()) ==> Valid()
    {
      if isBlendingEnabled && !isBlendingForced {
        isBlendingEnabled := true;
        isBlendingForced := true;
      } else if isBlendingForced {
        isBlendingEnabled := false;
        isBlendingForced := false;
      } else {
        isBlendingEnabled := true;
        isBlendingForced := false;
      }
    }

    // ------------------------------------------------------------ objects

    method AddObject(obj: Object3D)
      modifies this`objects
      ensures objects == old(objects) + [obj]
    {
      objects := objects + [obj];
    }

    method AddGUIObject(obj: Object3D)
      modifies this`guiObjects
      ensures guiObjects == old(guiObjects) + [obj]
    {
      guiObjects := guiObjects + [obj];
    }

    /** A parsed object arrives: it is posed by the animator first when animation is on, then appended. */
    method OnLoad(data: Object3D)
      modifies this`objects, this`animatorUpdates
      ensures objects == old(objects) + [data]
      ensures animatorUpdates == old(animatorUpdates) + (if doAnimation then [AnimatorUpdate(data, showBindPose)] else [])
    {
      if doAnimation {
        animatorUpdates := animatorUpdates + [AnimatorUpdate(data, showBindPose)];
      }
      AddObject(data);
    }

    /**
     * Every object authored in Blender gets the fixed quarter turn about X,
     * replacing whatever orientation it had; the flag records that at least
     * one object matched.
     */
    method FixCoordinateSystem()
      modifies this`isFixCoordinateSystem, (set o | o in objects)`orientation
      ensures forall o :: o in objects ==>
        o.orientation == if LoaderDispatch.IsBlender(o.authoringTool) then XAxisQuarterTurn else old(o.orientation)
      ensures isFixCoordinateSystem == (old(isFixCoordinateSystem) || exists o :: o in objects && LoaderDispatch.IsBlender(o.authoringTool))
    {
      var i := 0;
      while i < |objects|
        invariant 0 <= i <= |objects|
        invariant forall o :: o in objects ==>
          o.orientation == if LoaderDispatch.IsBlender(o.authoringTool) && o in objects[..i] then XAxisQuarterTurn else old(o.orientation)
        invariant isFixCoordinateSystem == (old(isFixCoordinateSystem) || exists o :: o in objects[..i] && LoaderDispatch.IsBlender(o.authoringTool))
      {
        var objData := objects[i];
        assert objects[..i + 1] == objects[..i] + [objData];
        if LoaderDispatch.IsBlender(objData.authoringTool) {
          objData.orientation := XAxisQuarterTurn;
          isFixCoordinateSystem := true;
        }
        i := i + 1;
      }
      assert objects[..i] == objects;
    }

    /**
     * Fits `datas` to `size`. On a non-empty list the caches end as
     * `Rescaling.Rescaled` says and, when the decision is to scale, every
     * object's scale and location are its cached original times the factor;
     * otherwise no object moves. On a zero denominator the source goes on
     * with a non-finite factor; the model stops before the transform loop.
     */
    method Rescale(datas: seq<Object3D>, size: real)
      modifies this`originalDimensions, this`originalTransforms
      modifies (set o | o in datas)`scale, (set o | o in datas)`location
      ensures |datas| == 0 ==> originalDimensions == old(originalDimensions) && originalTransforms == old(originalTransforms)
      ensures |datas| > 0 ==>
        Rescaling.Caches(originalDimensions, originalTransforms) ==
        Rescaling.Rescaled(old(Rescaling.Caches(originalDimensions, originalTransforms)), datas, old(DimensionsOf(datas)), old(TransformsOf(datas)), size)
      ensures |datas| > 0 ==>
        var s := Rescaling.Decide(old(originalDimensions), datas, old(DimensionsOf(datas)), size);
        forall k :: 0 <= k < |datas| ==>
          if s.ScaleBy? then AtOriginalTimes(datas[k], originalTransforms, s.factor)
          else datas[k].scale == old(datas[k].scale) && datas[k].location == old(datas[k].location)
    {
      if |datas| == 0 {
        return;
      }
      var box := UnionOfOriginals(datas);
      var s := Rescaling.ChooseScaling(size, box, |datas|);
      if !s.ScaleBy? {
        return;
      }
      ScaleFromOriginals(datas, s.factor);
    }

    /**
     * The extremes loop: visits `datas` in order, caching each object's
     * extents the first time it is seen, and returns the union of the
     * cached originals.
     */
    method UnionOfOriginals(datas: seq<Object3D>) returns (box: Rescaling.Box)
      requires |datas| > 0
      modifies this`originalDimensions
      ensures originalDimensions == Rescaling.CacheFirstSeen(old(originalDimensions), datas, DimensionsOf(datas))
      ensures forall k :: 0 <= k < |datas| ==> datas[k] in originalDimensions
      ensures box == Rescaling.Union(Rescaling.Originals(originalDimensions, datas))
    {
      ghost var dims := DimensionsOf(datas);
      ghost var c0 := originalDimensions;
      var currentDimensions := CachedDimensions(datas[0]);
      box := Rescaling.Seed(currentDimensions);
      Rescaling.CacheFirstSeenStep(c0, datas, dims, 0);
      var i := 1;
      while i < |datas|
        invariant 1 <= i <= |datas|
        invariant originalDimensions == Rescaling.CacheFirstSeen(c0, datas[..i], dims[..i])
        invariant forall k :: 0 <= k < i ==> datas[k] in originalDimensions
        invariant box == Rescaling.Union(Rescaling.Originals(originalDimensions, datas[..i]))
      {
        ghost var cache := originalDimensions;
        var original := CachedDimensions(datas[i]);
        Rescaling.UnionOfOriginalsStep(c0, datas, dims, i, cache, box, originalDimensions);
        box := Rescaling.Merge(box, original);
        i := i + 1;
      }
      assert datas[..|datas|] == datas && dims[..|datas|] == dims;
    }

    /** The extents cached for `obj`, cached from its current extents the first time it is seen. */
    method CachedDimensions(obj: Object3D) returns (original: Dimensions)
      modifies this`originalDimensions
      ensures originalDimensions == if obj in old(originalDimensions) then old(originalDimensions) else old(originalDimensions)[obj := obj.dimensions]
      ensures original == originalDimensions[obj]
    {
      if obj in originalDimensions {
        original := originalDimensions[obj];
      } else {
        original := obj.dimensions;
        originalDimensions := originalDimensions[obj := original];
      }
    }

    /**
     * The transform loop: visits `datas` in order, caching each object's
     * transform the first time it is seen, and sets every object to its
     * cached original times `factor`.
     */
    method ScaleFromOriginals(datas: seq<Object3D>, factor: real)
      modifies this`originalTransforms, (set o | o in datas)`scale, (set o | o in datas)`location
      ensures originalTransforms == Rescaling.CacheFirstSeen(old(originalTransforms), datas, old(TransformsOf(datas)))
      ensures forall k :: 0 <= k < |datas| ==> AtOriginalTimes(datas[k], originalTransforms, factor)
    {
      ghost var transforms := TransformsOf(datas);
      ghost var c0 := originalTransforms;
      var j := 0;
      while j < |datas|
        invariant 0 <= j <= |datas|
        invariant originalTransforms == Rescaling.CacheFirstSeen(c0, datas[..j], transforms[..j])
        invariant forall o :: o in datas[..j] ==> AtOriginalTimes(o, originalTransforms, factor)
        invariant forall o :: o in datas && o !in originalTransforms ==> o.TransformOf() == old(o.TransformOf())
      {
        ScaleFromOriginal(datas[j], factor);
        Rescaling.CacheFirstSeenStep(c0, datas, transforms, j);
        assert datas[..j + 1] == datas[..j] + [datas[j]];
        j := j + 1;
      }
      assert datas[..j] == datas;
      assert transforms[..j] == transforms;
    }

    /** One iteration of the transform loop. */
    method ScaleFromOriginal(data: Object3D, factor: real)
      modifies this`originalTransforms, data`scale, data`location
      ensures originalTransforms ==
        if data in old(originalTransforms) then old(originalTransforms)
        else old(originalTransforms)[data := old(data.TransformOf())]
      ensures AtOriginalTimes(data, originalTransforms, factor)
    {
      var original: Transform;
      if data in originalTransforms {
        original := originalTransforms[data];
      } else {
        original := data.TransformOf();
        originalTransforms := originalTransforms[data := original];
      }
      data.scale := Scaled(original.scale, factor);
      data.location := Scaled(original.location, factor);
    }

    /**
     * Loading is over: a sole object is marked centered, Blender objects are
     * turned, and all objects are rescaled to `unit` (the engine's unit size).
     */
    method OnLoadComplete(unit: real)
      modifies (set o | o in objects)`centered, this`isFixCoordinateSystem, (set o | o in objects)`orientation
      modifies this`originalDimensions, this`originalTransforms
      modifies (set o | o in objects)`scale, (set o | o in objects)`location
      ensures |objects| == 1 ==> objects[0].centered
      ensures |objects| != 1 ==> forall o :: o in objects ==> o.centered == old(o.centered)
      ensures forall o :: o in objects ==>
        o.orientation == if LoaderDispatch.IsBlender(o.authoringTool) then XAxisQuarterTurn else old(o.orientation)
      ensures isFixCoordinateSystem == (old(isFixCoordinateSystem) || exists o :: o in objects && LoaderDispatch.IsBlender(o.authoringTool))
      ensures |objects| > 0 ==>
        Rescaling.Caches(originalDimensions, originalTransforms) ==
        Rescaling.Rescaled(old(Rescaling.Caches(originalDimensions, originalTransforms)), objects, old(DimensionsOf(objects)), old(TransformsOf(objects)), unit)
      ensures |objects| == 0 ==> originalDimensions == old(originalDimensions) && originalTransforms == old(originalTransforms)
      ensures |objects| > 0 ==>
        var s := Rescaling.Decide(old(originalDimensions), objects, old(DimensionsOf(objects)), unit);
        forall k :: 0 <= k < |objects| ==>
          if s.ScaleBy? then AtOriginalTimes(objects[k], originalTransforms, s.factor)
          else objects[k].scale == old(objects[k].scale) && objects[k].location == old(objects[k].location)
    {
      if |objects| == 1 {
        objects[0].centered := true;
      }
      ghost var dims := DimensionsOf(objects);
      ghost var transforms := TransformsOf(objects);
      FixCoordinateSystem();
      assert DimensionsOf(objects) == dims;
      assert TransformsOf(objects) == transforms;
      Rescale(objects, unit);
    }

    // ------------------------------------------------------------ events

    /**
     * A collision event: the user has interacted, the hit point is added
     * when collisions are on, and the hit object toggles the selection.
     */
    method OnCollision(objectToSelect: Object3D?, point: Object3D?) returns (outcome: CollisionOutcome)
      modifies this`userHasInteracted, this`objects, this`selectedObject, this`selectionEvents
      ensures userHasInteracted
      ensures objects == old(objects) + (if isCollision && point != null then [point] else [])
      ensures match SelectionAfter(old(selectedObject), objectToSelect)
              case None =>
                outcome == NullHit && selectedObject == old(selectedObject) && selectionEvents == old(selectionEvents)
              case Some(next) =>
                outcome == Handled && selectedObject == next && selectionEvents == old(selectionEvents) + [next]
    {
      userHasInteracted := true;
      if isCollision && point != null {
        AddObject(point);
      }
      if selectedObject == objectToSelect {
        SetSelectedObject(null);
        outcome := Handled;
      } else if objectToSelect == null {
        outcome := NullHit;
      } else {
        SetSelectedObject(objectToSelect);
        outcome := Handled;
      }
    }

    method SetSelectedObject(obj: Object3D?)
      modifies this`selectedObject, this`selectionEvents
      ensures selectedObject == obj && selectionEvents == old(selectionEvents) + [obj]
    {
      selectedObject := obj;
      selectionEvents := selectionEvents + [obj];
    }

    /**
     * A touch event: the user has interacted, and a rotate or move gesture
     * composes a rotation onto the selected object's orientation.
     */
    method OnTouch(action: TouchAction, dx: real, dy: real, angle: real, length: real)
      modifies this`userHasInteracted, {selectedObject}`orientation
      ensures userHasInteracted
      ensures selectedObject != null ==>
        selectedObject.orientation == match action
          case Rotate => Product(old(selectedObject.orientation), AboutCameraDirection(angle))
          case Move => Product(old(selectedObject.orientation), AboutDragAxis(dx, dy, -length / 360.0))
          case OtherAction => old(selectedObject.orientation)
    {
      userHasInteracted := true;
      var selected := selectedObject;
      if action == Rotate && selected != null {
        selected.orientation := Product(selected.orientation, AboutCameraDirection(angle));
      } else if action == Move && selected != null {
        selected.orientation := Product(selected.orientation, AboutDragAxis(dx, dy, -length / 360.0));
      }
    }

    /**
     * Loads texture bytes onto `obj`, or onto the sole object when `obj` is
     * null. `data` is what reading the texture yields, `None` when reading
     * fails; then the source throws and nothing changes.
     */
    method LoadTexture(obj: Object3D?, data: Option<array<bv8>>) returns (outcome: TextureOutcome)
      modifies this`drawTextures, (set o: Object3D | o == obj || o in objects)`textureData
      ensures obj == null && |objects| != 1 ==> outcome == Unavailable
      ensures data.None? && (obj != null || |objects| == 1) ==> outcome == ReadFailed
      ensures outcome.Loaded? <==> data.Some? && (obj != null || |objects| == 1)
      ensures outcome.Loaded? ==>
        && outcome.target == (if obj != null then obj else objects[0])
        && outcome.target.textureData == data.value
        && Flags() == DisplayModes.Apply(old(Flags()), DisplayModes.TextureLoaded)
      ensures !outcome.Loaded? ==> Flags() == old(Flags())
      ensures forall o :: o in objects && (!outcome.Loaded? || o != outcome.target) ==> o.textureData == old(o.textureData)
    {
      if obj == null && |objects| != 1 {
        return Unavailable;
      }
      var target := if obj != null then obj else objects[0];
      if data.None? {
        return ReadFailed;
      }
      target.textureData := data.value;
      drawTextures := true;
      outcome := Loaded(target);
    }

    // -------------------------------------------------------- frame hook

    /** Turns the light bulb with the clock while the light rotates. */
    method AnimateLight(uptime: nat)
      modifies this`lightRotation
      ensures lightRotation == if rotatingLight then LightAngle(uptime) else old(lightRotation)
    {
      if !rotatingLight {
        return;
      }
      var time := uptime % 5000;
      lightRotation := (360.0 / 5000.0) * (time as real);
    }

    /** Orbits the camera one step while the user has not touched the scene. */
    method AnimateCamera()
      modifies camera`orbitSteps
      ensures camera.orbitSteps == if userHasInteracted then old(camera.orbitSteps) else old(camera.orbitSteps) + 1
    {
      if !userHasInteracted {
        camera.orbitSteps := camera.orbitSteps + 1;
      }
    }

    /** The per-frame hook: light, camera, then one animator call per object when animating. */
    method OnDrawFrame(uptime: nat)
      modifies this`lightRotation, camera`orbitSteps, this`animatorUpdates
      ensures lightRotation == if rotatingLight then LightAngle(uptime) else old(lightRotation)
      ensures camera.orbitSteps == if userHasInteracted then old(camera.orbitSteps) else old(camera.orbitSteps) + 1
      ensures animatorUpdates == old(animatorUpdates) + if doAnimation then AnimatorUpdates(objects, showBindPose) else []
    {
      AnimateLight(uptime);
      AnimateCamera();
      if |objects| == 0 {
        return;
      }
      if doAnimation {
        var i := 0;
        while i < |objects|
          invariant 0 <= i <= |objects|
          invariant animatorUpdates == old(animatorUpdates) + AnimatorUpdates(objects[..i], showBindPose)
          modifies this`animatorUpdates
        {
          assert AnimatorUpdates(objects[..i + 1], showBindPose) == AnimatorUpdates(objects[..i], showBindPose) + [AnimatorUpdate(objects[i], showBindPose)];
          animatorUpdates := animatorUpdates + [AnimatorUpdate(objects[i], showBindPose)];
          i := i + 1;
        }
        assert objects[..i] == objects;
      }
    }
  }

  // ---------------------------------------------------------------- lemmas

  /** A second collision with the same object undoes the first selection change, unless the first deselected it. */
  lemma CollisionTwiceOnSameObject(current: Object3D?, hit: Object3D)
    ensures SelectionAfter(current, hit).Some?
    ensures var first := SelectionAfter(current, hit).value;
            SelectionAfter(first, hit) == Some(if current == hit then hit else null)
  {
  }

  /** The light turns once every 5000 ms and its angle grows within each turn. */
  lemma LightAnglePeriodic(t: nat, u: nat)
    ensures LightAngle(t + 5000) == LightAngle(t)
    ensures t % 5000 < u % 5000 ==> LightAngle(t) < LightAngle(u)
    ensures LightAngle(t) == 0.0 <==> t % 5000 == 0
  {
    assert (t + 5000) % 5000 == t % 5000;
  }
}
