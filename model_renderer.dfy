/**
 * The model renderer: the per-frame loop over the scene, the projection,
 * skybox and zoom settings, the renderer's own display switches, and the
 * caches of geometry it derives from the scene's objects (wireframes,
 * skeletons, normals, bounding boxes) and of textures it uploads.
 *
 * GL calls, matrices and shaders are not modelled; what a frame draws is
 * recorded as a trace of `Step`s, the passes as `passLog`, the texture
 * uploads as `uploads`, and the events fired to listeners as `events`.
 */
module Renderer {
  import opened Geometry
  import opened SceneObjects
  import DisplayModes
  import Scene
  import RenderLogic

  /** An object one of the unseen builders derived from `source`; `serial` tells successive builds apart. */
  datatype Built = Built(source: Object3D, serial: nat)

  /** What the renderer asks the GPU to draw, in order. */
  datatype Step =
    | LightBulb
    | LightLine
    | PointPrimitiveDraw(obj: Object3D)
    | WireframeDraw(obj: Object3D, wireframe: Built, textureId: int)
    | PointCloudDraw(obj: Object3D, textureId: int)
    | HalfTransparentDraw(obj: Object3D, textureId: int)
    | SkeletonDraw(obj: Object3D, skeleton: Built)
    | SolidDraw(obj: Object3D, textureId: int)
    | RenderHook(obj: Object3D)
    | BoundingBoxDraw(obj: Object3D, box: Built, highlighted: bool)
    | NormalsDraw(obj: Object3D, normals: Built)
    | AnimatorUpdate(target: Built, bindPose: bool)
    | CubeMapDraw(skyBox: SkyBox3D)
    | Clear(inverted: bool)

  /** A skybox built from the surface's skybox `index`, textured with the cube map the GPU named `cubeMap`. */
  datatype SkyBox3D = SkyBox3D(index: nat, cubeMap: int)

  /** A pass drawn, with the colour mask it drew with. */
  datatype PassDrawn = PassDrawn(pass: RenderLogic.Pass, mask: RenderLogic.ColorMask)

  /** The flags the extra objects are drawn with: colours, and nothing else. */
  const ExtrasFlags: RenderLogic.Effective := RenderLogic.Effective(false, false, false, false, true)

  /** The objects of a list. */
  function Members(objs: seq<Object3D>): set<Object3D>
  {
    set o | o in objs
  }

  /** Every visible object with a drawer among `objs` is clean: its change mark is cleared. */
  predicate AllClean(objs: set<Object3D>)
    reads objs`changed
  {
    forall o :: o in objs && o.visible && o.hasDrawer ==> !o.changed
  }

  /** No object among `objs` was marked changed between the two states. */
  twostate predicate NoneDirtied(objs: set<Object3D>)
    reads objs`changed
  {
    forall o :: o in objs && o.changed ==> old(o.changed)
  }

  /** The passes of a frame in order: a VR-glasses pass draws without a colour mask, any other with the frame's. */
  function Plan(passes: seq<RenderLogic.Pass>, frameMask: RenderLogic.ColorMask): (r: seq<PassDrawn>)
    ensures |r| == |passes|
    ensures forall i :: 0 <= i < |r| ==> r[i].pass == passes[i]
    ensures forall i :: 0 <= i < |r| && (passes[i] == RenderLogic.GlassesLeft || passes[i] == RenderLogic.GlassesRight) ==> r[i].mask == RenderLogic.NoMask
    ensures forall i :: 0 <= i < |r| && passes[i] != RenderLogic.GlassesLeft && passes[i] != RenderLogic.GlassesRight ==> r[i].mask == frameMask
  {
    if passes == [] then [] else [PassDrawn(passes[0], RenderLogic.PassMask(passes[0], frameMask))] + Plan(passes[1..], frameMask)
  }

  /** How many steps a branch draws. */
  function BranchLength(branch: RenderLogic.Branch): nat
  {
    if branch == RenderLogic.PointPrimitive then 1 else 2
  }

  /**
   * The steps branch `branch` draws for `obj` with texture name `textureId`,
   * animating with the bind-pose flag `bindPose`; the wireframe and skeleton
   * branches draw the ones cached for `obj`.
   */
  function BranchSteps(obj: Object3D, branch: RenderLogic.Branch, textureId: int, bindPose: bool,
      wireframes: map<Object3D, Built>, skeleton: map<Object3D, Built>): (r: seq<Step>)
    requires branch == RenderLogic.WireframeBranch ==> obj in wireframes
    requires branch == RenderLogic.SkeletonBranch ==> obj in skeleton
    ensures |r| == BranchLength(branch)
  {
    match branch
    case PointPrimitive => [PointPrimitiveDraw(obj)]
    case WireframeBranch => [AnimatorUpdate(wireframes[obj], bindPose), WireframeDraw(obj, wireframes[obj], textureId)]
    case PointCloudBranch => [PointCloudDraw(obj, textureId), RenderHook(obj)]
    case SkeletonBranch => [HalfTransparentDraw(obj, textureId), SkeletonDraw(obj, skeleton[obj])]
    case SolidBranch => [SolidDraw(obj, textureId), RenderHook(obj)]
  }

  /** `steps` are the draw of branch `branch` for `obj`, of the wireframe or skeleton cached for it when the branch draws one. */
  predicate BranchDrawn(steps: seq<Step>, obj: Object3D, branch: RenderLogic.Branch, textureId: int, bindPose: bool,
      wireframes: map<Object3D, Built>, skeleton: map<Object3D, Built>)
  {
    && (branch == RenderLogic.WireframeBranch ==> obj in wireframes)
    && (branch == RenderLogic.SkeletonBranch ==> obj in skeleton)
    && steps == BranchSteps(obj, branch, textureId, bindPose, wireframes, skeleton)
  }

  /**
   * Whether `steps` open with the draw of branch `branch` for `obj`, whatever
   * the texture name and whichever wireframe or skeleton is drawn.
   */
  predicate Opens(steps: seq<Step>, obj: Object3D, branch: RenderLogic.Branch)
  {
    match branch
    case PointPrimitive => |steps| >= 1 && steps[0] == PointPrimitiveDraw(obj)
    case WireframeBranch =>
      |steps| >= 2 && steps[0].AnimatorUpdate? && steps[1].WireframeDraw? && steps[1].obj == obj && steps[1].wireframe == steps[0].target
    case PointCloudBranch => |steps| >= 2 && steps[0].PointCloudDraw? && steps[0].obj == obj && steps[1] == RenderHook(obj)
    case SkeletonBranch => |steps| >= 2 && steps[0].HalfTransparentDraw? && steps[0].obj == obj && steps[1].SkeletonDraw? && steps[1].obj == obj
    case SolidBranch => |steps| >= 2 && steps[0].SolidDraw? && steps[0].obj == obj && steps[1] == RenderHook(obj)
  }

  /** Whatever follows them, a branch's steps open with that branch's draw for the object. */
  lemma BranchStepsOpen(obj: Object3D, branch: RenderLogic.Branch, textureId: int, bindPose: bool,
      wireframes: map<Object3D, Built>, skeleton: map<Object3D, Built>, rest: seq<Step>)
    requires branch == RenderLogic.WireframeBranch ==> obj in wireframes
    requires branch == RenderLogic.SkeletonBranch ==> obj in skeleton
    ensures Opens(BranchSteps(obj, branch, textureId, bindPose, wireframes, skeleton) + rest, obj, branch)
  {
  }

  /** The parts, one after the other. */
  function Flatten(parts: seq<seq<Step>>): (r: seq<Step>)
  {
    if parts == [] then [] else Flatten(parts[..|parts| - 1]) + parts[|parts| - 1]
  }

  /** A trace that was `start` and the parts, extended by one more part, is `start` and the parts with that part appended. */
  lemma FlattenSnoc(start: seq<Step>, parts: seq<seq<Step>>, part: seq<Step>, before: seq<Step>, after: seq<Step>)
    requires before == start + Flatten(parts) && after == before + part
    ensures after == start + Flatten(parts + [part])
  {
    assert (parts + [part])[..|parts|] == parts;
  }

  /**
   * `part` is what drawing `obj` added: nothing when `drawn` says it is not
   * drawn, otherwise steps that open with the draw of branch `branch`.
   */
  predicate PartOpens(part: seq<Step>, obj: Object3D, drawn: bool, branch: RenderLogic.Branch)
  {
    (part != [] <==> drawn) && (part != [] ==> Opens(part, obj, branch))
  }

  /** Appending two runs of steps one after the other appends them together. */
  lemma AppendAssoc(a: seq<Step>, b: seq<Step>, c: seq<Step>)
    ensures a + b + c == a + (b + c)
  {
  }

  /** Steps that open with a branch's draw are the part of an object that is drawn. */
  lemma OpensPart(part: seq<Step>, obj: Object3D, branch: RenderLogic.Branch)
    requires Opens(part, obj, branch)
    ensures PartOpens(part, obj, true, branch)
  {
  }

  /**
   * What one pass draws from: its light steps, its flags, the objects in
   * drawing order (the scene's, then its GUI objects) and the scene's point
   * and skeleton modes.
   */
  datatype PassView = PassView(light: seq<Step>, eff: RenderLogic.Effective, objs: seq<Object3D>, drawPoints: bool, drawSkeleton: bool)

  /**
   * `steps` are one pass's draw from `view`: the light steps, then one part
   * per object in list order; an object's part is empty unless it is visible
   * and has a drawer, and otherwise opens with the draw of the branch its
   * primitive, the flags and the scene's modes choose.
   */
  predicate PassTraced(steps: seq<Step>, parts: seq<seq<Step>>, view: PassView)
  {
    && steps == view.light + Flatten(parts)
    && |parts| == |view.objs|
    && forall j :: 0 <= j < |parts| ==>
         PartOpens(parts[j], view.objs[j], view.objs[j].visible && view.objs[j].hasDrawer,
           RenderLogic.ChooseBranch(view.objs[j].drawMode, view.eff.drawWireframe, view.drawPoints, view.drawSkeleton, view.objs[j].animated))
  }

  /** The passes' draws, one list of steps and parts per pass, each as `PassTraced` says. */
  predicate PassesTraced(passSteps: seq<seq<Step>>, passParts: seq<seq<seq<Step>>>, view: PassView)
  {
    && |passSteps| == |passParts|
    && forall i :: 0 <= i < |passSteps| ==> PassTraced(passSteps[i], passParts[i], view)
  }

  /** A single pass drawn: the frame's steps are its steps. */
  lemma OnePassTraced(steps: seq<Step>, parts: seq<seq<Step>>, view: PassView)
    requires PassTraced(steps, parts, view)
    ensures PassesTraced([steps], [parts], view)
    ensures Flatten([steps]) == steps
  {
    assert [steps][..0] == [];
  }

  /** Two passes drawn one after the other: the frame's steps are theirs, in that order. */
  lemma TwoPassesTraced(firstSteps: seq<Step>, firstParts: seq<seq<Step>>, secondSteps: seq<Step>, secondParts: seq<seq<Step>>, view: PassView)
    requires PassTraced(firstSteps, firstParts, view) && PassTraced(secondSteps, secondParts, view)
    ensures PassesTraced([firstSteps, secondSteps], [firstParts, secondParts], view)
    ensures Flatten([firstSteps, secondSteps]) == firstSteps + secondSteps
  {
    assert [firstSteps, secondSteps][..1] == [firstSteps];
    assert Flatten([firstSteps]) == firstSteps by {
      assert [firstSteps][..0] == [];
    }
  }

  /** The events fired to the renderer's listeners. */
  datatype ViewEvent =
    | SurfaceCreated
    | SurfaceChanged(width: int, height: int)
    | ProjectionChanged(projection: RenderLogic.Projection)
    | FpsEvent(fps: int)

  /** The number of skyboxes the surface prepares. */
  const SkyBoxCount: nat := 2

  /** The keys written in a log, in no order. */
  function Keys(log: seq<string>): (r: set<string>)
  {
    if log == [] then {} else Keys(log[..|log| - 1]) + {log[|log| - 1]}
  }

  /** A key is among a log's keys exactly when the log holds it; a log never has more keys than entries. */
  lemma {:induction false} KeysOf(log: seq<string>)
    ensures forall k :: k in Keys(log) <==> k in log
    ensures |Keys(log)| <= |log|
  {
    if log != [] {
      var init := log[..|log| - 1];
      KeysOf(init);
      assert log == init + [log[|log| - 1]];
    }
  }

  /** A log with as many keys as entries holds each key once. */
  lemma {:induction false} DistinctKeys(log: seq<string>)
    requires |Keys(log)| == |log|
    ensures forall i, j :: 0 <= i < j < |log| ==> log[i] != log[j]
  {
    if log != [] {
      var init := log[..|log| - 1];
      var last := log[|log| - 1];
      KeysOf(init);
      assert last !in Keys(init);
      DistinctKeys(init);
      forall i, j | 0 <= i < j < |log|
        ensures log[i] != log[j]
      {
        if j < |log| - 1 {
          assert log[i] == init[i] && log[j] == init[j];
        } else {
          assert log[i] == init[i] && init[i] in init;
        }
      }
    }
  }

  class ModelRenderer {
    /** The scene being drawn: absent until the activity provides one. */
    const scene: Scene.SceneLoader?
    /** The axis and grids drawn with the extras background. */
    const extras: seq<Object3D>
    /** The GL texture name the unseen texture loader returns for some bytes. */
    const glTexture: array<bv8> -> int

    var width: int
    var height: int
    var projection: RenderLogic.Projection
    var zoom: real
    var isUseskyBoxId: int
    var isDrawSkyBox: bool
    /** The skyboxes built so far, created with the surface. */
    var skyBoxes3D: array?<Option<SkyBox3D>>
    var fatalException: bool
    var anaglyphSwitch: bool

    var framesPerSecondTime: int
    var framesPerSecond: int
    var framesPerSecondCounter: int

    var lightsEnabled: bool
    var wireframeEnabled: bool
    var texturesEnabled: bool
    var colorsEnabled: bool
    var animationEnabled: bool
    var debugSkeleton: bool

    var wireframes: map<Object3D, Built>
    var skeleton: map<Object3D, Built>
    var normals: map<Object3D, Built>
    var boundingBoxes: map<Object3D, Built>
    /** GL texture names, keyed by the identity of the uploaded bytes. */
    var textures: map<array<bv8>, int>
    /** The keys of the messages logged once, and those messages in the order they were logged. */
    var infoLogged: set<string>
    var onceLog: seq<string>
    /** How many derived objects have been built. */
    var builds: nat

    var trace: seq<Step>
    var passLog: seq<PassDrawn>
    var uploads: seq<array<bv8>>
    var events: seq<ViewEvent>

    /** The frames-per-second fields as one value. */
    function Fps(): RenderLogic.FpsCounter
      reads this`framesPerSecondTime, this`framesPerSecond, this`framesPerSecondCounter
    {
      RenderLogic.FpsCounter(framesPerSecondTime, framesPerSecond, framesPerSecondCounter)
    }

    /** The objects a pass draws: the scene's objects and its GUI objects. */
    function Drawable(): set<Object3D>
      requires scene != null
      reads scene`objects, scene`guiObjects
    {
      Members(scene.objects + scene.guiObjects)
    }

    /** The renderer's own display switches as one value. */
    function Switches(): RenderLogic.RendererFlags
      reads this`lightsEnabled, this`wireframeEnabled, this`texturesEnabled, this`colorsEnabled, this`animationEnabled
    {
      RenderLogic.RendererFlags(lightsEnabled, wireframeEnabled, texturesEnabled, colorsEnabled, animationEnabled)
    }

    /** Every key logged once is in the log, once: the log's keys are the logged keys, and there are as many as entries. */
    predicate LogsOnce()
      reads this`infoLogged, this`onceLog
    {
      infoLogged == Keys(onceLog) && |infoLogged| == |onceLog|
    }

    /** What `LogsOnce` means: the log holds exactly the logged keys, each once. */
    lemma LogsOnceMeans()
      requires LogsOnce()
      ensures forall k :: k in onceLog <==> k in infoLogged
      ensures forall i, j :: 0 <= i < j < |onceLog| ==> onceLog[i] != onceLog[j]
    {
      KeysOf(onceLog);
      DistinctKeys(onceLog);
    }

    constructor (scene: Scene.SceneLoader?, extras: seq<Object3D>, glTexture: array<bv8> -> int)
      ensures this.scene == scene && this.extras == extras && this.glTexture == glTexture
      ensures projection == RenderLogic.Perspective && zoom == 1.0
      ensures isUseskyBoxId == 0 && isDrawSkyBox && skyBoxes3D == null
      ensures !fatalException && !anaglyphSwitch
      ensures Fps() == RenderLogic.FpsInitial
      ensures Switches() == RenderLogic.RendererDefaults
      ensures wireframes == map[] && skeleton == map[] && normals == map[] && boundingBoxes == map[]
      ensures textures == map[] && infoLogged == {} && onceLog == [] && LogsOnce()
      ensures trace == [] && passLog == [] && uploads == [] && events == []
    {
      this.scene := scene;
      this.extras := extras;
      this.glTexture := glTexture;
      width := 0;
      height := 0;
      projection := RenderLogic.Perspective;
      zoom := 1.0;
      isUseskyBoxId := 0;
      isDrawSkyBox := true;
      skyBoxes3D := null;
      fatalException := false;
      anaglyphSwitch := false;
      framesPerSecondTime := -1;
      framesPerSecond := 0;
      framesPerSecondCounter := 0;
      lightsEnabled := true;
      wireframeEnabled := false;
      texturesEnabled := true;
      colorsEnabled := true;
      animationEnabled := true;
      debugSkeleton := false;
      wireframes := map[];
      skeleton := map[];
      normals := map[];
      boundingBoxes := map[];
      textures := map[];
      infoLogged := {};
      onceLog := [];
      builds := 0;
      trace := [];
      passLog := [];
      uploads := [];
      events := [];
    }

    // ------------------------------------------------------ surface

    /** Fires the creation event and prepares an empty skybox table. */
    method OnSurfaceCreated()
      modifies this`events, this`skyBoxes3D
      ensures events == old(events) + [SurfaceCreated]
      ensures fresh(skyBoxes3D) && skyBoxes3D.Length == SkyBoxCount
      ensures forall i :: 0 <= i < skyBoxes3D.Length ==> skyBoxes3D[i].None?
    {
      events := events + [SurfaceCreated];
      skyBoxes3D := new Option<SkyBox3D>[SkyBoxCount](_ => None);
    }

    /** Records the new surface size and fires the change event. */
    method OnSurfaceChanged(width: int, height: int)
      modifies this`width, this`height, this`events
      ensures this.width == width && this.height == height
      ensures events == old(events) + [SurfaceChanged(width, height)]
    {
      this.width := width;
      this.height := height;
      events := events + [SurfaceChanged(width, height)];
    }

    // --------------------------------------------------- projection

    /** Sets the projection and tells the listeners. */
    method SetProjection(p: RenderLogic.Projection)
      modifies this`projection, this`events
      ensures projection == p
      ensures events == old(events) + [ProjectionChanged(p)]
    {
      projection := p;
      events := events + [ProjectionChanged(p)];
    }

    /** Moves to the next projection of the cycle. */
    method ToggleProjection()
      modifies this`projection, this`events
      ensures projection == RenderLogic.NextProjection(old(projection))
      ensures events == old(events) + [ProjectionChanged(projection)]
    {
      match projection
      case Perspective => SetProjection(RenderLogic.Isometric);
      case Isometric => SetProjection(RenderLogic.Orthographic);
      case Orthographic => SetProjection(RenderLogic.Free);
      case Free => SetProjection(RenderLogic.Perspective);
    }

    /** Honours a zoom only under a parallel projection and strictly between 0 and 10, then re-announces the projection. */
    method SetZoom(requested: real)
      modifies this`zoom, this`events
      ensures zoom == RenderLogic.ZoomAfter(projection, old(zoom), requested)
      ensures events == old(events) + if RenderLogic.ZoomAccepted(projection, requested) then [ProjectionChanged(projection)] else []
    {
      if projection == RenderLogic.Orthographic || projection == RenderLogic.Isometric {
        if requested > 0.0 && requested < 10.0 {
          zoom := requested;
          events := events + [ProjectionChanged(projection)];
        }
      }
    }

    method AddZoom(delta: real)
      modifies this`zoom, this`events
      ensures zoom == RenderLogic.ZoomAfter(projection, old(zoom), old(zoom) + delta)
      ensures events == old(events) + if RenderLogic.ZoomAccepted(projection, old(zoom) + delta) then [ProjectionChanged(projection)] else []
    {
      SetZoom(zoom + delta);
    }

    // ------------------------------------------------------- skybox

    method SetSkyBoxId(id: int)
      modifies this`isUseskyBoxId
      ensures isUseskyBoxId == id
    {
      isUseskyBoxId := id;
    }

    /** Steps through extras, plain background, inverted background and the two skyboxes. */
    method ToggleSkyBox()
      modifies this`isUseskyBoxId
      ensures isUseskyBoxId == RenderLogic.NextSkyBox(old(isUseskyBoxId))
      ensures RenderLogic.InSkyBoxCycle(old(isUseskyBoxId)) ==> RenderLogic.InSkyBoxCycle(isUseskyBoxId)
    {
      isUseskyBoxId := isUseskyBoxId + 1;
      if isUseskyBoxId > 1 {
        isUseskyBoxId := -3;
      }
    }

    // ----------------------------------------------------- switches

    method ToggleLights()
      modifies this`lightsEnabled
      ensures Switches() == old(Switches()).(lights := !old(lightsEnabled))
    {
      lightsEnabled := !lightsEnabled;
    }

    method ToggleWireframe()
      modifies this`wireframeEnabled
      ensures Switches() == old(Switches()).(wireframe := !old(wireframeEnabled))
    {
      wireframeEnabled := !wireframeEnabled;
    }

    method ToggleTextures()
      modifies this`texturesEnabled
      ensures Switches() == old(Switches()).(textures := !old(texturesEnabled))
    {
      texturesEnabled := !texturesEnabled;
    }

    method ToggleColors()
      modifies this`colorsEnabled
      ensures Switches() == old(Switches()).(colors := !old(colorsEnabled))
    {
      colorsEnabled := !colorsEnabled;
    }

    method ToggleAnimation()
      modifies this`animationEnabled
      ensures Switches() == old(Switches()).(animation := !old(animationEnabled))
    {
      animationEnabled := !animationEnabled;
    }

    // ---------------------------------------------------------- FPS

    /** The `finally` block of a frame: counts the frame and reports the rate once a second. */
    method TickFps(now: int)
      modifies this`framesPerSecondTime, this`framesPerSecond, this`framesPerSecondCounter, this`events
      ensures Fps() == RenderLogic.FpsTick(old(Fps()), now).0
      ensures events == old(events) + if RenderLogic.FpsTick(old(Fps()), now).1 then [FpsEvent(framesPerSecond)] else []
    {
      if framesPerSecondTime == -1 {
        framesPerSecondTime := now;
        framesPerSecondCounter := framesPerSecondCounter + 1;
      } else if now > framesPerSecondTime + RenderLogic.FpsWindow {
        framesPerSecond := framesPerSecondCounter;
        framesPerSecondCounter := 1;
        framesPerSecondTime := now;
        events := events + [FpsEvent(framesPerSecond)];
      } else {
        framesPerSecondCounter := framesPerSecondCounter + 1;
      }
    }

    /** Reads and clears the object's dirty flag, then loads its textures when the pass draws them. */
    method PrepareObject(obj: Object3D, eff: RenderLogic.Effective) returns (changed: bool, textureId: int)
      modifies this`textures, this`uploads, obj`changed, obj`elements, obj`textureData, obj`textureId
      ensures changed == old(obj.changed) && !obj.changed
      ensures textureId == if eff.drawTextures then old(TextureName(obj)) else -1
      ensures eff.drawTextures ==> TexturesLoaded(obj)
      ensures !eff.drawTextures ==> unchanged(this`textures, this`uploads, obj`elements, obj`textureData, obj`textureId)
      ensures forall k :: k in old(textures) ==> k in textures && textures[k] == old(textures)[k]
    {
      changed := obj.changed;
      obj.changed := false;
      textureId := -1;
      if eff.drawTextures {
        textureId := LoadTextures(obj);
      }
    }

    /**
     * What follows the branch: a fault stands for an exception raised once the
     * branch is drawn, whose message is logged once, skipping the rest;
     * otherwise the box is drawn when the scene draws boxes of solid objects or
     * the object is selected, and the normals when the scene draws normals.
     */
    method DrawDecorations(obj: Object3D, changed: bool, fault: Option<string>) returns (ghost steps: seq<Step>)
      requires scene != null
      modifies this`infoLogged, this`onceLog, this`normals, this`boundingBoxes, this`builds, this`trace
      ensures fault.Some? ==> infoLogged == old(infoLogged) + {fault.value} && unchanged(this`normals, this`boundingBoxes, this`builds, this`trace)
      ensures fault.None? ==> unchanged(this`infoLogged, this`onceLog)
      ensures trace == old(trace) + steps
      ensures DecorationsDrawn(obj, fault, changed, old(normals), steps)
      ensures !(fault.None? && RenderLogic.DrawsBoundingBox(scene.drawBoundingBox, obj.solid, scene.selectedObject == obj)) ==>
        boundingBoxes == old(boundingBoxes)
      ensures old(boundingBoxes).Keys <= boundingBoxes.Keys && (forall o :: o in old(boundingBoxes) ==> boundingBoxes[o] == old(boundingBoxes)[o])
      ensures !(fault.None? && scene.drawNormals) ==> normals == old(normals)
      ensures fault.None? && scene.drawNormals && RenderLogic.Rebuilds(obj in old(normals), changed) && obj.hasNormals ==>
        builds >= 1 && normals == old(normals)[obj := Built(obj, builds - 1)]
      ensures fault.None? && scene.drawNormals && !(RenderLogic.Rebuilds(obj in old(normals), changed) && obj.hasNormals) ==>
        normals == old(normals)
      ensures old(LogsOnce()) ==> LogsOnce()
    {
      steps := [];
      if fault.Some? {
        LogOnce(fault.value);
        return;
      }
      if (scene.drawBoundingBox && obj.solid) || scene.selectedObject == obj {
        DrawBoundingBox(obj);
        steps := [BoundingBoxDraw(obj, boundingBoxes[obj], scene.selectedObject == obj)];
      }
      if scene.drawNormals {
        ghost var before := trace;
        DrawNormals(obj, changed, scene.showBindPose);
        steps := steps + trace[|before|..];
      }
    }

    /** Draws an object that is visible and has a drawer: prepares it, then draws it. */
    method DrawDrawable(obj: Object3D, eff: RenderLogic.Effective, fault: Option<string>) returns (ghost steps: seq<Step>)
      requires scene != null
      modifies this`infoLogged, this`onceLog, this`textures, this`uploads, this`wireframes, this`skeleton,
        this`normals, this`boundingBoxes, this`builds, this`trace
      modifies obj`changed, obj`elements, obj`textureData, obj`textureId
      ensures !obj.changed
      ensures old(infoLogged) <= infoLogged
      ensures fault.Some? ==> fault.value in infoLogged
      ensures trace == old(trace) + steps
      ensures DrawnAs(obj, eff, fault, old(obj.changed), old(normals), if eff.drawTextures then old(TextureName(obj)) else -1, steps)
      ensures Opens(steps, obj, BranchOf(obj, eff))
      ensures old(LogsOnce()) ==> LogsOnce()
    {
      var changed, textureId := PrepareObject(obj, eff);
      steps := DrawPrepared(obj, eff, changed, textureId, fault);
    }

    /** Draws a prepared object: its branch, then what comes after it. */
    method DrawPrepared(obj: Object3D, eff: RenderLogic.Effective, changed: bool, textureId: int, fault: Option<string>)
      returns (ghost steps: seq<Step>)
      requires scene != null
      modifies this`infoLogged, this`onceLog, this`wireframes, this`skeleton, this`normals, this`boundingBoxes, this`builds, this`trace
      ensures old(infoLogged) <= infoLogged
      ensures fault.Some? ==> fault.value in infoLogged
      ensures trace == old(trace) + steps
      ensures DrawnAs(obj, eff, fault, changed, old(normals), textureId, steps)
      ensures Opens(steps, obj, BranchOf(obj, eff))
      ensures old(LogsOnce()) ==> LogsOnce()
    {
      ghost var first := DrawBranch(obj, eff, changed, textureId);
      ghost var rest := DrawDecorations(obj, changed, fault);
      steps := first + rest;
      DrawnOfParts(obj, eff, fault, changed, old(normals), textureId, first, rest);
    }

    /**
     * `drawObject`: invisible objects are skipped; the first draw of each
     * object is logged once; an object without a drawer is logged once and
     * skipped, keeping its dirty flag; any other object is drawn.
     */
    method DrawObject(obj: Object3D, eff: RenderLogic.Effective, fault: Option<string>) returns (ghost steps: seq<Step>)
      requires scene != null
      modifies this`infoLogged, this`onceLog, this`textures, this`uploads, this`wireframes, this`skeleton,
        this`normals, this`boundingBoxes, this`builds, this`trace
      modifies obj`changed, obj`elements, obj`textureData, obj`textureId
      ensures !obj.visible ==> unchanged(this) && unchanged(obj)
      ensures old(infoLogged) <= infoLogged
      ensures obj.visible ==> obj.id in infoLogged
      ensures obj.visible && !obj.hasDrawer ==>
        && infoLogged == old(infoLogged) + {obj.id, obj.id + "drawer"}
        && unchanged(obj) && unchanged(this`trace, this`textures, this`uploads, this`builds)
      ensures obj.visible && obj.hasDrawer ==> !obj.changed
      ensures trace == old(trace) + steps
      ensures PartOpens(steps, obj, obj.visible && obj.hasDrawer, BranchOf(obj, eff))
      ensures obj.visible && obj.hasDrawer && fault.Some? ==> fault.value in infoLogged
      ensures obj.changed ==> old(obj.changed)
      ensures old(LogsOnce()) ==> LogsOnce()
    {
      steps := [];
      if !obj.visible {
        return;
      }
      LogOnce(obj.id);
      if !obj.hasDrawer {
        LogOnce(obj.id + "drawer");
        return;
      }
      steps := DrawDrawable(obj, eff, fault);
      OpensPart(steps, obj, BranchOf(obj, eff));
    }

    /**
     * The state after drawing the first `i` objects of `objs`: each visible
     * one is logged, each visible one with a drawer is clean, and every
     * object of the list either keeps the dirty flag it had in `was` or is
     * one of those drawn and clean; the log only grew from `logged0`.
     */
    predicate FirstCleaned(objs: seq<Object3D>, i: int, was: seq<bool>, logged0: set<string>)
      reads this`infoLogged
      reads Members(objs)`changed
    {
      && 0 <= i <= |objs| && |was| == |objs|
      && logged0 <= infoLogged
      && (forall j :: 0 <= j < |objs| ==> objs[j].changed == was[j] || (objs[j].visible && objs[j].hasDrawer && !objs[j].changed))
      && (forall j :: 0 <= j < i ==> (objs[j].visible ==> objs[j].id in infoLogged) && (objs[j].visible && objs[j].hasDrawer ==> !objs[j].changed))
    }

    /**
     * The trace after drawing the first `i` objects of `objs` in order: what
     * was `trace0`, then one part per object, each as `PartOpens` says for
     * that object under `eff`.
     */
    predicate FirstInOrder(objs: seq<Object3D>, i: int, eff: RenderLogic.Effective, trace0: seq<Step>, parts: seq<seq<Step>>)
      requires scene != null
      reads this`trace, scene`drawPoints, scene`drawSkeleton
    {
      && 0 <= i <= |objs| && |parts| == i
      && trace == trace0 + Flatten(parts)
      && (forall j :: 0 <= j < i ==> PartOpens(parts[j], objs[j], objs[j].visible && objs[j].hasDrawer, BranchOf(objs[j], eff)))
    }

    /**
     * `drawObject` on object `i` of a list, for the state of the list: once
     * the first `i` objects are logged and clean, so are the first `i + 1`.
     */
    method DrawCleanAt(objs: seq<Object3D>, i: int, eff: RenderLogic.Effective, fault: Option<string>,
        ghost was: seq<bool>, ghost logged0: set<string>) returns (ghost steps: seq<Step>)
      requires scene != null && 0 <= i < |objs|
      requires FirstCleaned(objs, i, was, logged0)
      modifies this`infoLogged, this`onceLog, this`textures, this`uploads, this`wireframes, this`skeleton,
        this`normals, this`boundingBoxes, this`builds, this`trace
      modifies {objs[i]}`changed, {objs[i]}`elements, {objs[i]}`textureData, {objs[i]}`textureId
      ensures FirstCleaned(objs, i + 1, was, logged0)
      ensures trace == old(trace) + steps
      ensures PartOpens(steps, objs[i], objs[i].visible && objs[i].hasDrawer, BranchOf(objs[i], eff))
      ensures old(LogsOnce()) ==> LogsOnce()
    {
      steps := DrawObject(objs[i], eff, fault);
    }

    /**
     * `drawObject(..., objects, i)` as the loops of `onDrawFrame` call it:
     * once the first `i` objects are drawn in order and clean, the first
     * `i + 1` are, the new part being object `i`'s.
     */
    method DrawAt(objs: seq<Object3D>, i: int, eff: RenderLogic.Effective, fault: Option<string>,
        ghost was: seq<bool>, ghost logged0: set<string>, ghost trace0: seq<Step>, ghost parts: seq<seq<Step>>) returns (ghost steps: seq<Step>)
      requires scene != null && 0 <= i < |objs|
      requires FirstCleaned(objs, i, was, logged0) && FirstInOrder(objs, i, eff, trace0, parts)
      modifies this`infoLogged, this`onceLog, this`textures, this`uploads, this`wireframes, this`skeleton,
        this`normals, this`boundingBoxes, this`builds, this`trace
      modifies {objs[i]}`changed, {objs[i]}`elements, {objs[i]}`textureData, {objs[i]}`textureId
      ensures FirstCleaned(objs, i + 1, was, logged0) && FirstInOrder(objs, i + 1, eff, trace0, parts + [steps])
      ensures old(LogsOnce()) ==> LogsOnce()
    {
      ghost var before := trace;
      steps := DrawCleanAt(objs, i, eff, fault, was, logged0);
      FlattenSnoc(trace0, parts, steps, before, trace);
    }

    /** The dirty flags of a list's objects, in order. */
    function ChangedOf(objs: seq<Object3D>): (r: seq<bool>)
      reads Members(objs)`changed
      ensures |r| == |objs| && forall j :: 0 <= j < |objs| ==> r[j] == objs[j].changed
    {
      if objs == [] then []
      else
        var n := |objs| - 1;
        assert Members(objs[..n]) <= Members(objs);
        ChangedOf(objs[..n]) + [objs[n].changed]
    }

    /**
     * Draws the objects of a list in order: the trace grows by one part per
     * object, each what `drawObject` drew for it; afterwards every visible
     * object with a drawer is clean and its first draw logged, and no object
     * is marked dirty.
     */
    method DrawObjects(objs: seq<Object3D>, eff: RenderLogic.Effective, faults: Object3D -> Option<string>) returns (ghost parts: seq<seq<Step>>)
      requires scene != null
      modifies this`infoLogged, this`onceLog, this`textures, this`uploads, this`wireframes, this`skeleton,
        this`normals, this`boundingBoxes, this`builds, this`trace
      modifies Members(objs)`changed, Members(objs)`elements, Members(objs)`textureData, Members(objs)`textureId
      ensures AllClean(Members(objs))
      ensures NoneDirtied(Members(objs))
      ensures forall j :: 0 <= j < |objs| && !(objs[j].visible && objs[j].hasDrawer) ==> objs[j].changed == old(objs[j].changed)
      ensures forall o :: o in Members(objs) && o.visible ==> o.id in infoLogged
      ensures old(infoLogged) <= infoLogged
      ensures trace == old(trace) + Flatten(parts) && ListDrawn(objs, eff, parts)
      ensures old(LogsOnce()) ==> LogsOnce()
    {
      ghost var was := ChangedOf(objs);
      parts := [];
      var i := 0;
      while i < |objs|
        invariant 0 <= i <= |objs|
        invariant FirstCleaned(objs, i, was, old(infoLogged)) && FirstInOrder(objs, i, eff, old(trace), parts)
        invariant old(LogsOnce()) ==> LogsOnce()
      {
        ghost var part := DrawAt(objs, i, eff, faults(objs[i]), was, old(infoLogged), old(trace), parts);
        parts := parts + [part];
        i := i + 1;
      }
    }

    /** The light steps of a pass: the bulb when the light rotates, the line to it when normals are drawn. */
    function LightSteps(eff: RenderLogic.Effective): (r: seq<Step>)
      requires scene != null
      reads scene`rotatingLight, scene`drawNormals
      ensures r != [] <==> eff.drawLighting && (scene.rotatingLight || scene.drawNormals)
      ensures LightLine in r <==> eff.drawLighting && scene.drawNormals
      ensures LightBulb in r <==> eff.drawLighting && scene.rotatingLight
    {
      (if eff.drawLighting && scene.rotatingLight then [LightBulb] else [])
      + (if eff.drawLighting && scene.drawNormals then [LightLine] else [])
    }

    /**
     * One pass of the private `onDrawFrame`: the light, the scene's objects,
     * then its GUI objects, with the flags the scene and the switches allow;
     * each pass flips the skeleton debug toggle.
     */
    method DrawPass(pass: RenderLogic.Pass, mask: RenderLogic.ColorMask, faults: Object3D -> Option<string>)
      returns (ghost steps: seq<Step>, ghost parts: seq<seq<Step>>)
      requires scene != null
      modifies this`infoLogged, this`onceLog, this`textures, this`uploads, this`wireframes, this`skeleton,
        this`normals, this`boundingBoxes, this`builds, this`trace, this`debugSkeleton, this`passLog
      modifies Drawable()`changed, Drawable()`elements, Drawable()`textureData, Drawable()`textureId
      ensures passLog == old(passLog) + [PassDrawn(pass, mask)]
      ensures debugSkeleton == !old(debugSkeleton)
      ensures trace == old(trace) + steps && PassTraced(steps, parts, old(View()))
      ensures AllClean(Drawable())
      ensures NoneDirtied(Drawable())
      ensures forall o :: o in Drawable() && o.visible ==> o.id in infoLogged
      ensures old(LogsOnce()) ==> LogsOnce()
    {
      passLog := passLog + [PassDrawn(pass, mask)];
      steps, parts := DrawLitObjects(faults);
      debugSkeleton := !debugSkeleton;
    }

    /** The draws of a pass under its flags: the light, then the scene's objects and its GUI objects. */
    method DrawLitObjects(faults: Object3D -> Option<string>)
      returns (ghost steps: seq<Step>, ghost parts: seq<seq<Step>>)
      requires scene != null
      modifies this`infoLogged, this`onceLog, this`textures, this`uploads, this`wireframes, this`skeleton,
        this`normals, this`boundingBoxes, this`builds, this`trace
      modifies Drawable()`changed, Drawable()`elements, Drawable()`textureData, Drawable()`textureId
      ensures trace == old(trace) + steps && PassTraced(steps, parts, old(View()))
      ensures AllClean(Drawable())
      ensures NoneDirtied(Drawable())
      ensures forall o :: o in Drawable() && o.visible ==> o.id in infoLogged
      ensures old(LogsOnce()) ==> LogsOnce()
    {
      var eff := PassFlags();
      var light := LightSteps(eff);
      trace := trace + light;
      parts := DrawObjects(scene.objects + scene.guiObjects, eff, faults);
      steps := light + Flatten(parts);
      AppendAssoc(old(trace), light, Flatten(parts));
      assert PassFlags() == eff;
    }

    /** The flags of a pass: the scene's display flags as the renderer's switches allow them. */
    function PassFlags(): RenderLogic.Effective
      requires scene != null
      reads scene`drawwMode, scene`drawWireframe, scene`drawPoints, scene`drawSkeleton, scene`drawNormals, scene`drawBoundingBox, scene`drawTextures, scene`drawColors, scene`drawLighting
      reads scene`rotatingLight, scene`doAnimation, scene`showBindPose, scene`isCollision, scene`isStereoscopic, scene`isAnaglyph, scene`isVRGlasses, scene`isBlendingEnabled, scene`isBlendingForced
      reads this`lightsEnabled, this`wireframeEnabled, this`texturesEnabled, this`colorsEnabled, this`animationEnabled
    {
      RenderLogic.EffectiveFlags(scene.Flags(), Switches())
    }

    /** What a pass draws from, as it stands when the pass begins. */
    function View(): PassView
      requires scene != null
      reads scene`objects, scene`guiObjects
      reads scene`drawwMode, scene`drawWireframe, scene`drawPoints, scene`drawSkeleton, scene`drawNormals, scene`drawBoundingBox, scene`drawTextures, scene`drawColors, scene`drawLighting
      reads scene`rotatingLight, scene`doAnimation, scene`showBindPose, scene`isCollision, scene`isStereoscopic, scene`isAnaglyph, scene`isVRGlasses, scene`isBlendingEnabled, scene`isBlendingForced
      reads this`lightsEnabled, this`wireframeEnabled, this`texturesEnabled, this`colorsEnabled, this`animationEnabled
    {
      PassView(LightSteps(PassFlags()), PassFlags(), scene.objects + scene.guiObjects, scene.drawPoints, scene.drawSkeleton)
    }

    /**
     * The passes of a frame: one pass when the scene is not stereoscopic,
     * after which the camera's change mark is cleared; two anaglyph passes,
     * ordered by the switch, which then flips; two VR-glasses passes without
     * a colour mask; no pass for a stereoscopic scene of neither kind.
     */
    method DrawPasses(mask: RenderLogic.ColorMask, faults: Object3D -> Option<string>)
      returns (ghost passSteps: seq<seq<Step>>)
      requires scene != null
      modifies this`infoLogged, this`onceLog, this`textures, this`uploads, this`wireframes, this`skeleton,
        this`normals, this`boundingBoxes, this`builds, this`trace, this`debugSkeleton, this`passLog, this`anaglyphSwitch
      modifies scene.camera`changed
      modifies Drawable()`changed, Drawable()`elements, Drawable()`textureData, Drawable()`textureId
      ensures passLog == old(passLog) + Plan(RenderLogic.Passes(scene.Stereo(), old(anaglyphSwitch)), mask)
      ensures anaglyphSwitch == RenderLogic.SwitchAfter(scene.Stereo(), old(anaglyphSwitch))
      ensures scene.camera.changed == (old(scene.camera.changed) && scene.isStereoscopic)
      ensures debugSkeleton == (old(debugSkeleton) != (|RenderLogic.Passes(scene.Stereo(), old(anaglyphSwitch))| == 1))
      ensures RenderLogic.Passes(scene.Stereo(), old(anaglyphSwitch)) != [] ==> AllClean(Drawable())
      ensures NoneDirtied(Drawable())
      ensures |passSteps| == |RenderLogic.Passes(scene.Stereo(), old(anaglyphSwitch))|
      ensures trace == old(trace) + Flatten(passSteps)
      ensures old(LogsOnce()) ==> LogsOnce()
    {
      if !scene.isStereoscopic {
        ghost var passes := RenderLogic.Passes(scene.Stereo(), anaglyphSwitch);
        assert Plan(passes, mask) == [PassDrawn(RenderLogic.Mono, mask)];
        ghost var steps, parts := DrawMono(mask, faults);
        OnePassTraced(steps, parts, old(View()));
        passSteps := [steps];
      } else {
        ghost var passParts;
        passSteps, passParts := DrawStereo(mask, faults);
      }
    }

    /**
     * The passes of a stereoscopic frame: two anaglyph passes, ordered by the
     * switch, which then flips; two VR-glasses passes without a colour mask;
     * no pass when neither kind is on.
     */
    method DrawStereo(mask: RenderLogic.ColorMask, faults: Object3D -> Option<string>)
      returns (ghost passSteps: seq<seq<Step>>, ghost passParts: seq<seq<seq<Step>>>)
      requires scene != null && scene.isStereoscopic
      modifies this`infoLogged, this`onceLog, this`textures, this`uploads, this`wireframes, this`skeleton,
        this`normals, this`boundingBoxes, this`builds, this`trace, this`debugSkeleton, this`passLog, this`anaglyphSwitch
      modifies Drawable()`changed, Drawable()`elements, Drawable()`textureData, Drawable()`textureId
      ensures passLog == old(passLog) + Plan(RenderLogic.Passes(scene.Stereo(), old(anaglyphSwitch)), mask)
      ensures anaglyphSwitch == RenderLogic.SwitchAfter(scene.Stereo(), old(anaglyphSwitch))
      ensures debugSkeleton == old(debugSkeleton)
      ensures RenderLogic.Passes(scene.Stereo(), old(anaglyphSwitch)) != [] ==> AllClean(Drawable())
      ensures NoneDirtied(Drawable())
      ensures |passSteps| == |RenderLogic.Passes(scene.Stereo(), old(anaglyphSwitch))|
      ensures trace == old(trace) + Flatten(passSteps) && PassesTraced(passSteps, passParts, old(View()))
      ensures old(LogsOnce()) ==> LogsOnce()
    {
      ghost var passes := RenderLogic.Passes(scene.Stereo(), anaglyphSwitch);
      if scene.isAnaglyph {
        if anaglyphSwitch {
          assert Plan(passes, mask) == [PassDrawn(RenderLogic.AnaglyphRight, mask), PassDrawn(RenderLogic.AnaglyphLeft, mask)];
          passSteps, passParts := DrawTwoPasses(RenderLogic.AnaglyphRight, RenderLogic.AnaglyphLeft, mask, faults);
        } else {
          assert Plan(passes, mask) == [PassDrawn(RenderLogic.AnaglyphLeft, mask), PassDrawn(RenderLogic.AnaglyphRight, mask)];
          passSteps, passParts := DrawTwoPasses(RenderLogic.AnaglyphLeft, RenderLogic.AnaglyphRight, mask, faults);
        }
        anaglyphSwitch := !anaglyphSwitch;
      } else if scene.isVRGlasses {
        assert Plan(passes, mask) == [PassDrawn(RenderLogic.GlassesLeft, RenderLogic.NoMask), PassDrawn(RenderLogic.GlassesRight, RenderLogic.NoMask)];
        passSteps, passParts := DrawTwoPasses(RenderLogic.GlassesLeft, RenderLogic.GlassesRight, RenderLogic.NoMask, faults);
      } else {
        assert passes == [];
        passSteps, passParts := [], [];
      }
    }

    /** The single pass of a frame that is not stereoscopic, after which the camera's change mark is cleared. */
    method DrawMono(mask: RenderLogic.ColorMask, faults: Object3D -> Option<string>)
      returns (ghost steps: seq<Step>, ghost parts: seq<seq<Step>>)
      requires scene != null
      modifies this`infoLogged, this`onceLog, this`textures, this`uploads, this`wireframes, this`skeleton,
        this`normals, this`boundingBoxes, this`builds, this`trace, this`debugSkeleton, this`passLog
      modifies scene.camera`changed
      modifies Drawable()`changed, Drawable()`elements, Drawable()`textureData, Drawable()`textureId
      ensures passLog == old(passLog) + [PassDrawn(RenderLogic.Mono, mask)]
      ensures debugSkeleton == !old(debugSkeleton)
      ensures !scene.camera.changed
      ensures AllClean(Drawable())
      ensures NoneDirtied(Drawable())
      ensures trace == old(trace) + steps && PassTraced(steps, parts, old(View()))
      ensures old(LogsOnce()) ==> LogsOnce()
    {
      steps, parts := DrawPass(RenderLogic.Mono, mask, faults);
      if scene.camera.changed {
        scene.camera.SetChanged(false);
      }
    }

    /** One pass of a stereoscopic frame, for one eye. */
    method DrawEye(pass: RenderLogic.Pass, mask: RenderLogic.ColorMask, faults: Object3D -> Option<string>)
      returns (ghost steps: seq<Step>, ghost parts: seq<seq<Step>>)
      requires scene != null
      modifies this`infoLogged, this`onceLog, this`textures, this`uploads, this`wireframes, this`skeleton,
        this`normals, this`boundingBoxes, this`builds, this`trace, this`debugSkeleton, this`passLog
      modifies Drawable()`changed, Drawable()`elements, Drawable()`textureData, Drawable()`textureId
      ensures passLog == old(passLog) + [PassDrawn(pass, mask)]
      ensures debugSkeleton == !old(debugSkeleton)
      ensures AllClean(Drawable())
      ensures NoneDirtied(Drawable())
      ensures trace == old(trace) + steps && PassTraced(steps, parts, old(View()))
      ensures old(LogsOnce()) ==> LogsOnce()
    {
      steps, parts := DrawPass(pass, mask, faults);
    }

    /** The two passes of a stereoscopic frame, one per eye, with the same mask. */
    method DrawTwoPasses(first: RenderLogic.Pass, second: RenderLogic.Pass, mask: RenderLogic.ColorMask, faults: Object3D -> Option<string>)
      returns (ghost passSteps: seq<seq<Step>>, ghost passParts: seq<seq<seq<Step>>>)
      requires scene != null
      modifies this`infoLogged, this`onceLog, this`textures, this`uploads, this`wireframes, this`skeleton,
        this`normals, this`boundingBoxes, this`builds, this`trace, this`debugSkeleton, this`passLog
      modifies Drawable()`changed, Drawable()`elements, Drawable()`textureData, Drawable()`textureId
      ensures passLog == old(passLog) + [PassDrawn(first, mask), PassDrawn(second, mask)]
      ensures debugSkeleton == old(debugSkeleton)
      ensures AllClean(Drawable())
      ensures NoneDirtied(Drawable())
      ensures |passSteps| == 2
      ensures trace == old(trace) + Flatten(passSteps) && PassesTraced(passSteps, passParts, old(View()))
      ensures old(LogsOnce()) ==> LogsOnce()
    {
      ghost var firstSteps, firstParts := DrawEye(first, mask, faults);
      ghost var secondSteps, secondParts := DrawEye(second, mask, faults);
      AppendAssoc(old(trace), firstSteps, secondSteps);
      TwoPassesTraced(firstSteps, firstParts, secondSteps, secondParts, old(View()));
      passSteps, passParts := [firstSteps, secondSteps], [firstParts, secondParts];
    }

    // ------------------------------------------------------ frame

    /** The size of the skybox table, or nothing before the surface is created. */
    function SkyBoxTable(): Option<nat>
      reads this`skyBoxes3D
    {
      if skyBoxes3D == null then None else Some(skyBoxes3D.Length)
    }

    /** What the current skybox setting makes the frame draw behind the scene. */
    function SkyBoxAction(): RenderLogic.SkyBoxAction
      reads this`isUseskyBoxId, this`isDrawSkyBox, this`skyBoxes3D
    {
      RenderLogic.SkyBoxActionOf(isUseskyBoxId, isDrawSkyBox, SkyBoxTable())
    }

    /**
     * `drawSkyBox`: the extra objects drawn with colours only, a clear to the
     * background colour or to its inverse, or a cube map; reports whether the
     * skybox table was missing, the exception that ends the frame.
     */
    method DrawSkyBox(cubeMap: int, faults: Object3D -> Option<string>)
      returns (missing: bool, ghost steps: seq<Step>, ghost parts: seq<seq<Step>>)
      requires scene != null
      modifies this`infoLogged, this`onceLog, this`textures, this`uploads, this`wireframes, this`skeleton,
        this`normals, this`boundingBoxes, this`builds, this`trace, this`isDrawSkyBox, skyBoxes3D
      modifies Members(extras)`changed, Members(extras)`elements, Members(extras)`textureData, Members(extras)`textureId
      ensures missing <==> old(SkyBoxAction()) == RenderLogic.SkyBoxesMissing
      ensures old(SkyBoxAction()) == RenderLogic.DrawExtras ==>
        AllClean(Members(extras)) && isDrawSkyBox == old(isDrawSkyBox) && (skyBoxes3D != null ==> unchanged(skyBoxes3D))
        && trace == old(trace) + Flatten(parts) && ListDrawn(extras, ExtrasFlags, parts)
      ensures NoneDirtied(Members(extras))
      ensures old(SkyBoxAction()) == RenderLogic.ClearToBackground ==> trace == old(trace) + [Clear(false)]
      ensures old(SkyBoxAction()) == RenderLogic.ClearToInverse ==> trace == old(trace) + [Clear(true)]
      ensures old(SkyBoxAction()).DrawCubeMap? ==> CubeMapDrawn(old(SkyBoxAction()).index, cubeMap)
      ensures !old(SkyBoxAction()).DrawExtras? && !old(SkyBoxAction()).DrawCubeMap? ==>
        isDrawSkyBox == old(isDrawSkyBox) && (skyBoxes3D != null ==> unchanged(skyBoxes3D))
      ensures old(SkyBoxAction()) == RenderLogic.NoBackground || missing ==> trace == old(trace)
      ensures trace == old(trace) + steps
      ensures old(LogsOnce()) ==> LogsOnce()
    {
      parts, steps := [], [];
      match SkyBoxAction()
      case DrawExtras =>
        missing := false;
        parts := DrawObjects(extras, ExtrasFlags, faults);
        steps := Flatten(parts);
      case ClearToBackground =>
        missing := false;
        trace := trace + [Clear(false)];
        steps := [Clear(false)];
      case ClearToInverse =>
        missing := false;
        trace := trace + [Clear(true)];
        steps := [Clear(true)];
      case DrawCubeMap(index) =>
        missing := false;
        steps := DrawCubeMap(index, cubeMap);
      case NoBackground =>
        missing := false;
      case SkyBoxesMissing =>
        missing := true;
    }

    /**
     * The effect of drawing cube map `index`: a skybox already built is drawn
     * again, never rebuilt; otherwise it is built from the cube map the GPU
     * loaded and drawn, or, when the load failed, skyboxes are switched off
     * and nothing is drawn.
     */
    twostate predicate CubeMapDrawn(index: nat, cubeMap: int)
      reads this, skyBoxes3D
    {
      && skyBoxes3D == old(skyBoxes3D) && skyBoxes3D != null && index < skyBoxes3D.Length
      && (old(skyBoxes3D[index]).Some? ==>
            skyBoxes3D[..] == old(skyBoxes3D[..]) && isDrawSkyBox == old(isDrawSkyBox)
            && trace == old(trace) + [CubeMapDraw(old(skyBoxes3D[index]).value)])
      && (old(skyBoxes3D[index]).None? && cubeMap != -1 ==>
            skyBoxes3D[..] == old(skyBoxes3D[..])[index := Some(SkyBox3D(index, cubeMap))] && isDrawSkyBox == old(isDrawSkyBox)
            && trace == old(trace) + [CubeMapDraw(SkyBox3D(index, cubeMap))])
      && (old(skyBoxes3D[index]).None? && cubeMap == -1 ==>
            skyBoxes3D[..] == old(skyBoxes3D[..]) && !isDrawSkyBox && trace == old(trace))
    }

    /** Lazily builds skybox `index` from the loaded cube map, then draws it. */
    method DrawCubeMap(index: nat, cubeMap: int) returns (ghost steps: seq<Step>)
      requires skyBoxes3D != null && index < skyBoxes3D.Length
      modifies skyBoxes3D, this`isDrawSkyBox, this`trace
      ensures CubeMapDrawn(index, cubeMap)
      ensures trace == old(trace) + steps
    {
      if skyBoxes3D[index].None? {
        if cubeMap != -1 {
          skyBoxes3D[index] := Some(SkyBox3D(index, cubeMap));
        } else {
          isDrawSkyBox := false;
        }
      }
      if skyBoxes3D[index].Some? {
        trace := trace + [CubeMapDraw(skyBoxes3D[index].value)];
        steps := [CubeMapDraw(skyBoxes3D[index].value)];
      } else {
        isDrawSkyBox := false;
        steps := [];
      }
    }

    /**
     * The body of `onDrawFrame` once a scene is set: a fault raised by the
     * GL calls before the scene is animated ends the frame and latches the
     * renderer; so does a missing skybox table.
     */
    method FrameBody(uptime: nat, fault: bool, cubeMap: int, faults: Object3D -> Option<string>)
      requires scene != null
      modifies this`infoLogged, this`onceLog, this`textures, this`uploads, this`wireframes, this`skeleton,
        this`normals, this`boundingBoxes, this`builds, this`trace, this`debugSkeleton, this`passLog, this`anaglyphSwitch,
        this`isDrawSkyBox, this`fatalException, skyBoxes3D
      modifies scene`lightRotation, scene`animatorUpdates, scene.camera`orbitSteps, scene.camera`changed
      modifies Drawable()`changed, Drawable()`elements, Drawable()`textureData, Drawable()`textureId
      modifies Members(extras)`changed, Members(extras)`elements, Members(extras)`textureData, Members(extras)`textureId
      ensures fatalException == (old(fatalException) || fault || old(SkyBoxAction()) == RenderLogic.SkyBoxesMissing)
      ensures fault ==> unchanged(this`trace, this`passLog, this`anaglyphSwitch, scene, scene.camera)
      ensures !fault ==> FrameDrawn(uptime)
      ensures old(trace) <= trace
      ensures old(LogsOnce()) ==> LogsOnce()
    {
      if fault {
        fatalException := true;
        return;
      }
      var missing, backdrop, passSteps := DrawScene(uptime, cubeMap, faults);
      if missing {
        fatalException := true;
      }
    }

    /**
     * What drawing a frame does to the scene and the pass log: the camera
     * orbits unless the user has touched the scene; unless the skybox table
     * was missing, the passes are those of the scene's stereo mode, drawn
     * with the frame's colour mask, and the anaglyph switch moves on.
     */
    twostate predicate FrameDrawn(uptime: nat)
      requires scene != null
      reads this, scene, scene.camera
    {
      && scene.camera.orbitSteps == (if scene.userHasInteracted then old(scene.camera.orbitSteps) else old(scene.camera.orbitSteps) + 1)
      && (old(SkyBoxAction()) != RenderLogic.SkyBoxesMissing ==>
            && passLog == old(passLog) + Plan(RenderLogic.Passes(scene.Stereo(), old(anaglyphSwitch)), old(RenderLogic.FrameMask(scene.Blending())))
            && anaglyphSwitch == RenderLogic.SwitchAfter(scene.Stereo(), old(anaglyphSwitch)))
      && (old(SkyBoxAction()) == RenderLogic.SkyBoxesMissing ==>
            passLog == old(passLog) && anaglyphSwitch == old(anaglyphSwitch))
    }

    /**
     * Animates the scene, draws the skybox and, unless the skybox table was
     * missing, the passes with the frame's colour mask.
     */
    method DrawScene(uptime: nat, cubeMap: int, faults: Object3D -> Option<string>)
      returns (missing: bool, ghost backdrop: seq<Step>, ghost passSteps: seq<seq<Step>>)
      requires scene != null
      modifies this`infoLogged, this`onceLog, this`textures, this`uploads, this`wireframes, this`skeleton,
        this`normals, this`boundingBoxes, this`builds, this`trace, this`debugSkeleton, this`passLog, this`anaglyphSwitch,
        this`isDrawSkyBox, skyBoxes3D
      modifies scene`lightRotation, scene`animatorUpdates, scene.camera`orbitSteps, scene.camera`changed
      modifies Drawable()`changed, Drawable()`elements, Drawable()`textureData, Drawable()`textureId
      modifies Members(extras)`changed, Members(extras)`elements, Members(extras)`textureData, Members(extras)`textureId
      ensures missing <==> old(SkyBoxAction()) == RenderLogic.SkyBoxesMissing
      ensures FrameDrawn(uptime)
      ensures trace == old(trace) + backdrop + Flatten(passSteps)
      ensures missing ==> backdrop == [] && passSteps == []
      ensures !missing ==> |passSteps| == |RenderLogic.Passes(scene.Stereo(), old(anaglyphSwitch))|
      ensures old(LogsOnce()) ==> LogsOnce()
    {
      var mask := RenderLogic.FrameMask(scene.Blending());
      missing, backdrop := DrawBackdrop(uptime, cubeMap, faults);
      if !missing {
        passSteps := DrawPasses(mask, faults);
      } else {
        passSteps := [];
      }
    }

    /** Animates the scene, then draws the skybox, reporting a missing skybox table. */
    method DrawBackdrop(uptime: nat, cubeMap: int, faults: Object3D -> Option<string>) returns (missing: bool, ghost steps: seq<Step>)
      requires scene != null
      modifies this`infoLogged, this`onceLog, this`textures, this`uploads, this`wireframes, this`skeleton,
        this`normals, this`boundingBoxes, this`builds, this`trace, this`isDrawSkyBox, skyBoxes3D
      modifies scene`lightRotation, scene`animatorUpdates, scene.camera`orbitSteps
      modifies Members(extras)`changed, Members(extras)`elements, Members(extras)`textureData, Members(extras)`textureId
      ensures missing <==> old(SkyBoxAction()) == RenderLogic.SkyBoxesMissing
      ensures scene.camera.orbitSteps == if scene.userHasInteracted then old(scene.camera.orbitSteps) else old(scene.camera.orbitSteps) + 1
      ensures trace == old(trace) + steps
      ensures missing ==> steps == []
      ensures old(LogsOnce()) ==> LogsOnce()
    {
      scene.OnDrawFrame(uptime);
      ghost var parts;
      missing, steps, parts := DrawSkyBox(cubeMap, faults);
    }

    /** The scene the renderer draws, as a set: empty when there is none. */
    function SceneSet(): set<Scene.SceneLoader>
    {
      if scene == null then {} else {scene}
    }

    /** The scene's camera, as a set: empty when there is no scene. */
    function CameraSet(): set<Camera>
    {
      if scene == null then {} else {scene.camera}
    }

    /** Every object a frame may draw: the extras, and the scene's objects and GUI objects. */
    function ObjectSet(): set<Object3D>
      reads SceneSet()`objects, SceneSet()`guiObjects
    {
      Members(extras) + if scene == null then {} else Drawable()
    }

    /**
     * `onDrawFrame`: once a fatal exception has been caught the renderer
     * draws nothing and counts no frame; otherwise it draws the frame when a
     * scene is set, and then, as its `finally` block does, counts the frame
     * at time `now`. A `fault` latches the renderer with or without a scene.
     */
    method OnDrawFrame(now: int, uptime: nat, fault: bool, cubeMap: int, faults: Object3D -> Option<string>)
      modifies this`infoLogged, this`onceLog, this`textures, this`uploads, this`wireframes, this`skeleton,
        this`normals, this`boundingBoxes, this`builds, this`trace, this`debugSkeleton, this`passLog, this`anaglyphSwitch,
        this`isDrawSkyBox, this`fatalException, skyBoxes3D
      modifies this`framesPerSecondTime, this`framesPerSecond, this`framesPerSecondCounter, this`events
      modifies SceneSet()`lightRotation, SceneSet()`animatorUpdates, CameraSet()`orbitSteps, CameraSet()`changed
      modifies ObjectSet()`changed, ObjectSet()`elements, ObjectSet()`textureData, ObjectSet()`textureId
      ensures old(fatalException) ==>
        unchanged(this) && unchanged(SceneSet(), CameraSet(), ObjectSet()) && (skyBoxes3D != null ==> unchanged(skyBoxes3D))
      ensures !old(fatalException) ==>
        && Fps() == RenderLogic.FpsTick(old(Fps()), now).0
        && events == old(events) + if RenderLogic.FpsTick(old(Fps()), now).1 then [FpsEvent(framesPerSecond)] else []
      ensures !old(fatalException) && scene == null ==> fatalException == fault && passLog == old(passLog) && trace == old(trace)
      ensures !old(fatalException) && scene != null ==>
        fatalException == (fault || old(SkyBoxAction()) == RenderLogic.SkyBoxesMissing)
      ensures !old(fatalException) && scene != null && !fault ==> FrameDrawn(uptime)
      ensures old(trace) <= trace
      ensures old(LogsOnce()) ==> LogsOnce()
    {
      if fatalException {
        return;
      }
      if scene != null {
        FrameBody(uptime, fault, cubeMap, faults);
      } else if fault {
        // The viewport, scissor and clear calls come before the scene check, inside the same `try`.
        fatalException := true;
      }
      TickFps(now);
    }

    // ------------------------------------------------------ logging

    /** Logs the message under `key` unless a message was already logged under it. */
    method LogOnce(key: string)
      modifies this`infoLogged, this`onceLog
      ensures infoLogged == old(infoLogged) + {key}
      ensures onceLog == old(onceLog) + if key in old(infoLogged) then [] else [key]
      ensures old(LogsOnce()) ==> LogsOnce()
    {
      if key !in infoLogged {
        onceLog := onceLog + [key];
        infoLogged := infoLogged + {key};
        assert onceLog[..|onceLog| - 1] == old(onceLog);
      }
    }

    // ------------------------------------------------------ objects

    /** The branch `drawObject` takes for `obj` under the pass's flags. */
    function BranchOf(obj: Object3D, eff: RenderLogic.Effective): RenderLogic.Branch
      requires scene != null
      reads scene`drawPoints, scene`drawSkeleton
    {
      RenderLogic.ChooseBranch(obj.drawMode, eff.drawWireframe, scene.drawPoints, scene.drawSkeleton, obj.animated)
    }

    /** The texture name loading `obj`'s textures returns in the current state: the last one the scan looks up, or -1 when there is none. */
    function TextureName(obj: Object3D): int
      reads this`textures, this`uploads, obj`hasElements, obj`elements, obj`textureData
    {
      if obj.hasElements then
        var r := RenderLogic.ScanUpTo(RenderLogic.TextureScan(textures, obj.elements, uploads, None, obj.textureData), |obj.elements|, glTexture);
        if r.last.Some? then r.last.value else -1
      else
        var found := RenderLogic.ObjectTexture(textures, obj.textureData, glTexture);
        if found.0.Some? then found.0.value else -1
    }

    /**
     * What loading `obj`'s textures did to the caches: with sub-meshes, the
     * cache, uploads, sub-meshes and object bytes are those the texture scan
     * ends with; without, the object's own bytes are uploaded, cached and
     * their name set on the object when they were not cached yet.
     */
    twostate predicate TexturesLoaded(obj: Object3D)
      reads this`textures, this`uploads, obj`hasElements, obj`elements, obj`textureData, obj`textureId
    {
      && (old(obj.hasElements) ==>
            var r := RenderLogic.ScanUpTo(
              RenderLogic.TextureScan(old(textures), old(obj.elements), old(uploads), None, old(obj.textureData)),
              |old(obj.elements)|, glTexture);
            && textures == r.cache && uploads == r.uploads
            && obj.elements == r.elements && obj.textureData == r.objectData && obj.textureId == old(obj.textureId))
      && (!old(obj.hasElements) ==>
            var found := RenderLogic.ObjectTexture(old(textures), old(obj.textureData), glTexture);
            var uploaded := old(obj.textureData) != null && old(obj.textureData) !in old(textures);
            && textures == found.1
            && uploads == old(uploads) + (if uploaded then [old(obj.textureData)] else [])
            && obj.elements == old(obj.elements) && obj.textureData == old(obj.textureData)
            && obj.textureId == (if uploaded then glTexture(old(obj.textureData)) else old(obj.textureId)))
    }

    /**
     * `steps` are what follows `obj`'s branch: nothing after a fault;
     * otherwise its box when the scene draws boxes of solid objects or the
     * object is selected, then its normals when the scene draws normals and
     * some are cached and kept or can be built. `wasChanged` and
     * `cachedNormals` are the dirty flag and the normals cache the draw began with.
     */
    predicate DecorationsDrawn(obj: Object3D, fault: Option<string>, wasChanged: bool, cachedNormals: map<Object3D, Built>, steps: seq<Step>)
      requires scene != null
      reads this`boundingBoxes, this`normals, scene`drawBoundingBox, scene`selectedObject, scene`drawNormals, scene`showBindPose
      reads obj`solid, obj`hasNormals
    {
      var box := fault.None? && RenderLogic.DrawsBoundingBox(scene.drawBoundingBox, obj.solid, scene.selectedObject == obj);
      var shown := fault.None? && scene.drawNormals && !(RenderLogic.Rebuilds(obj in cachedNormals, wasChanged) && !obj.hasNormals);
      && (box ==> obj in boundingBoxes)
      && (shown ==> obj in normals)
      && steps == (if box then [BoundingBoxDraw(obj, boundingBoxes[obj], scene.selectedObject == obj)] else [])
        + (if shown then [AnimatorUpdate(normals[obj], scene.showBindPose), NormalsDraw(obj, normals[obj])] else [])
    }

    /** `steps` are the draw of a visible object with a drawer: its branch, then what follows it. */
    predicate DrawnAs(obj: Object3D, eff: RenderLogic.Effective, fault: Option<string>, wasChanged: bool,
        cachedNormals: map<Object3D, Built>, textureId: int, steps: seq<Step>)
      requires scene != null
      reads this`wireframes, this`skeleton, this`boundingBoxes, this`normals
      reads scene`drawPoints, scene`drawSkeleton, scene`showBindPose, scene`drawBoundingBox, scene`selectedObject, scene`drawNormals
      reads obj`solid, obj`hasNormals
    {
      var n := BranchLength(BranchOf(obj, eff));
      && n <= |steps|
      && BranchDrawn(steps[..n], obj, BranchOf(obj, eff), textureId, scene.showBindPose, wireframes, skeleton)
      && DecorationsDrawn(obj, fault, wasChanged, cachedNormals, steps[n..])
    }

    /** A branch's draw followed by what comes after it is the object's draw, which opens with the branch's draw. */
    lemma DrawnOfParts(obj: Object3D, eff: RenderLogic.Effective, fault: Option<string>, wasChanged: bool,
        cachedNormals: map<Object3D, Built>, textureId: int, first: seq<Step>, rest: seq<Step>)
      requires scene != null
      requires BranchDrawn(first, obj, BranchOf(obj, eff), textureId, scene.showBindPose, wireframes, skeleton)
      requires DecorationsDrawn(obj, fault, wasChanged, cachedNormals, rest)
      ensures DrawnAs(obj, eff, fault, wasChanged, cachedNormals, textureId, first + rest)
      ensures Opens(first + rest, obj, BranchOf(obj, eff))
    {
      var n := BranchLength(BranchOf(obj, eff));
      assert (first + rest)[..n] == first && (first + rest)[n..] == rest;
      BranchStepsOpen(obj, BranchOf(obj, eff), textureId, scene.showBindPose, wireframes, skeleton, rest);
    }

    /**
     * `parts` are the steps drawing each of `objs` added, in list order:
     * nothing for an object that is invisible or has no drawer, and for any
     * other one steps that open with its branch's draw.
     */
    predicate ListDrawn(objs: seq<Object3D>, eff: RenderLogic.Effective, parts: seq<seq<Step>>)
      requires scene != null
      reads scene`drawPoints, scene`drawSkeleton
    {
      && |parts| == |objs|
      && forall j :: 0 <= j < |objs| ==>
           PartOpens(parts[j], objs[j], objs[j].visible && objs[j].hasDrawer, BranchOf(objs[j], eff))
    }

    /**
     * Loads what the object's textures need: with sub-meshes, every textured
     * one whose bytes are not cached is uploaded, as the texture scan says;
     * without, the object's own bytes are uploaded when not cached. Returns
     * the texture name last looked up, or -1 when there is none.
     */
    method LoadTextures(obj: Object3D) returns (textureId: int)
      modifies this`textures, this`uploads, obj`elements, obj`textureData, obj`textureId
      ensures TexturesLoaded(obj)
      ensures textureId == old(TextureName(obj))
      ensures forall k :: k in old(textures) ==> k in textures && textures[k] == old(textures)[k]
      ensures |old(uploads)| <= |uploads| && uploads[..|old(uploads)|] == old(uploads)
    {
      if obj.hasElements {
        ghost var start := RenderLogic.TextureScan(textures, obj.elements, uploads, None, obj.textureData);
        var cache: map<array<bv8>, int>, ups: seq<array<bv8>> := textures, uploads;
        var elems, last: Option<int>, data := obj.elements, None, obj.textureData;
        var e := 0;
        while e < |elems|
          invariant 0 <= e <= |elems| == |start.elements|
          invariant RenderLogic.TextureScan(cache, elems, ups, last, data) == RenderLogic.ScanUpTo(start, e, glTexture)
        {
          var element := elems[e];
          if element.hasMaterial && element.textureData != null {
            if element.textureData in cache {
              last := Some(cache[element.textureData]);
            } else {
              var name := glTexture(element.textureData);
              elems := elems[e := element.(textureId := name)];
              cache := cache[element.textureData := name];
              ups := ups + [element.textureData];
              last := Some(name);
              data := element.textureData;
            }
          }
          e := e + 1;
        }
        RenderLogic.ScanUpToFacts(start, |start.elements|, glTexture);
        textures, uploads := cache, ups;
        obj.elements, obj.textureData := elems, data;
        textureId := if last.Some? then last.value else -1;
      } else {
        textureId := -1;
        if obj.textureData != null && obj.textureData in textures {
          textureId := textures[obj.textureData];
        } else if obj.textureData != null {
          textureId := glTexture(obj.textureData);
          uploads := uploads + [obj.textureData];
          textures := textures[obj.textureData := textureId];
          obj.textureId := textureId;
        }
      }
    }

    /** Draws an object made of points as it is. */
    method DrawPoint(obj: Object3D)
      modifies this`trace
      ensures trace == old(trace) + [PointPrimitiveDraw(obj)]
    {
      trace := trace + [PointPrimitiveDraw(obj)];
    }

    /** Draws the object's vertices as a point cloud and lets the object render its extras. */
    method DrawPointCloud(obj: Object3D, textureId: int)
      modifies this`trace
      ensures trace == old(trace) + [PointCloudDraw(obj, textureId), RenderHook(obj)]
    {
      trace := trace + [PointCloudDraw(obj, textureId), RenderHook(obj)];
    }

    /** Builds a wireframe when none is cached or the object changed, then animates and draws it. */
    method DrawWireframe(obj: Object3D, changed: bool, textureId: int, bindPose: bool)
      modifies this`wireframes, this`builds, this`trace
      ensures wireframes == if RenderLogic.Rebuilds(obj in old(wireframes), changed) then old(wireframes)[obj := Built(obj, old(builds))] else old(wireframes)
      ensures builds == old(builds) + if RenderLogic.Rebuilds(obj in old(wireframes), changed) then 1 else 0
      ensures trace == old(trace) + [AnimatorUpdate(wireframes[obj], bindPose), WireframeDraw(obj, wireframes[obj], textureId)]
    {
      if obj !in wireframes || changed {
        wireframes := wireframes[obj := Built(obj, builds)];
        builds := builds + 1;
      }
      var wireframe := wireframes[obj];
      trace := trace + [AnimatorUpdate(wireframe, bindPose), WireframeDraw(obj, wireframe, textureId)];
    }

    /** Draws the object half transparent, then its skeleton, built when none is cached or the object changed. */
    method DrawSkeleton(obj: Object3D, changed: bool, textureId: int)
      modifies this`skeleton, this`builds, this`trace
      ensures skeleton == if RenderLogic.Rebuilds(obj in old(skeleton), changed) then old(skeleton)[obj := Built(obj, old(builds))] else old(skeleton)
      ensures builds == old(builds) + if RenderLogic.Rebuilds(obj in old(skeleton), changed) then 1 else 0
      ensures trace == old(trace) + [HalfTransparentDraw(obj, textureId), SkeletonDraw(obj, skeleton[obj])]
    {
      trace := trace + [HalfTransparentDraw(obj, textureId)];
      if obj !in skeleton || changed {
        skeleton := skeleton[obj := Built(obj, builds)];
        builds := builds + 1;
      }
      trace := trace + [SkeletonDraw(obj, skeleton[obj])];
    }

    /** Draws the solid object, logging its first solid draw once, and lets the object render its extras. */
    method DrawSolid(obj: Object3D, textureId: int)
      modifies this`trace, this`infoLogged, this`onceLog
      ensures trace == old(trace) + [SolidDraw(obj, textureId), RenderHook(obj)]
      ensures infoLogged == old(infoLogged) + {obj.id + "render"}
      ensures old(LogsOnce()) ==> LogsOnce()
    {
      LogOnce(obj.id + "render");
      trace := trace + [SolidDraw(obj, textureId), RenderHook(obj)];
    }

    /** Draws the object by the first branch that applies, as `RenderLogic.ChooseBranch` orders them. */
    method DrawBranch(obj: Object3D, eff: RenderLogic.Effective, changed: bool, textureId: int) returns (ghost steps: seq<Step>)
      requires scene != null
      modifies this`wireframes, this`skeleton, this`builds, this`trace, this`infoLogged, this`onceLog
      ensures BranchOf(obj, eff) == RenderLogic.PointPrimitive ==>
        trace == old(trace) + [PointPrimitiveDraw(obj)] && unchanged(this`wireframes, this`skeleton, this`builds, this`infoLogged, this`onceLog)
      ensures BranchOf(obj, eff) == RenderLogic.WireframeBranch ==>
        && wireframes == (if RenderLogic.Rebuilds(obj in old(wireframes), changed) then old(wireframes)[obj := Built(obj, old(builds))] else old(wireframes))
        && trace == old(trace) + [AnimatorUpdate(wireframes[obj], scene.showBindPose), WireframeDraw(obj, wireframes[obj], textureId)]
        && unchanged(this`skeleton, this`infoLogged, this`onceLog)
      ensures BranchOf(obj, eff) == RenderLogic.PointCloudBranch ==>
        trace == old(trace) + [PointCloudDraw(obj, textureId), RenderHook(obj)] && unchanged(this`wireframes, this`skeleton, this`builds, this`infoLogged, this`onceLog)
      ensures BranchOf(obj, eff) == RenderLogic.SkeletonBranch ==>
        && skeleton == (if RenderLogic.Rebuilds(obj in old(skeleton), changed) then old(skeleton)[obj := Built(obj, old(builds))] else old(skeleton))
        && trace == old(trace) + [HalfTransparentDraw(obj, textureId), SkeletonDraw(obj, skeleton[obj])]
        && unchanged(this`wireframes, this`infoLogged, this`onceLog)
      ensures BranchOf(obj, eff) == RenderLogic.SolidBranch ==>
        && trace == old(trace) + [SolidDraw(obj, textureId), RenderHook(obj)]
        && infoLogged == old(infoLogged) + {obj.id + "render"}
        && unchanged(this`wireframes, this`skeleton, this`builds)
      ensures old(infoLogged) <= infoLogged
      ensures trace == old(trace) + steps && BranchDrawn(steps, obj, BranchOf(obj, eff), textureId, scene.showBindPose, wireframes, skeleton)
      ensures old(LogsOnce()) ==> LogsOnce()
    {
      ghost var branch := BranchOf(obj, eff);
      if obj.drawMode == Points {
        assert branch == RenderLogic.PointPrimitive;
        DrawPoint(obj);
      } else if eff.drawWireframe && obj.drawMode != Points && obj.drawMode != Lines && obj.drawMode != LineStrip && obj.drawMode != LineLoop {
        assert branch == RenderLogic.WireframeBranch;
        DrawWireframe(obj, changed, textureId, scene.showBindPose);
      } else if scene.drawPoints {
        assert branch == RenderLogic.PointCloudBranch;
        DrawPointCloud(obj, textureId);
      } else if scene.drawSkeleton && obj.animated {
        assert branch == RenderLogic.SkeletonBranch;
        DrawSkeleton(obj, changed, textureId);
      } else {
        assert branch == RenderLogic.SolidBranch;
        DrawSolid(obj, textureId);
      }
      steps := BranchSteps(obj, branch, textureId, scene.showBindPose, wireframes, skeleton);
    }

    /** Draws the object's box, built the first time only; white for the selected object, gray otherwise. */
    method DrawBoundingBox(obj: Object3D)
      requires scene != null
      modifies this`boundingBoxes, this`builds, this`trace
      ensures boundingBoxes == if obj in old(boundingBoxes) then old(boundingBoxes) else old(boundingBoxes)[obj := Built(obj, old(builds))]
      ensures builds == old(builds) + if obj in old(boundingBoxes) then 0 else 1
      ensures trace == old(trace) + [BoundingBoxDraw(obj, boundingBoxes[obj], scene.selectedObject == obj)]
    {
      if obj !in boundingBoxes {
        boundingBoxes := boundingBoxes[obj := Built(obj, builds)];
        builds := builds + 1;
      }
      var highlighted := scene.selectedObject == obj;
      trace := trace + [BoundingBoxDraw(obj, boundingBoxes[obj], highlighted)];
    }

    /**
     * Draws the object's normals: rebuilt when none are cached or the object
     * changed, cached only when the object has any; a rebuild that yields none
     * draws nothing and leaves an older cache entry in place.
     */
    method DrawNormals(obj: Object3D, changed: bool, bindPose: bool)
      modifies this`normals, this`builds, this`trace
      ensures var rebuild := RenderLogic.Rebuilds(obj in old(normals), changed);
        && normals == (if rebuild && obj.hasNormals then old(normals)[obj := Built(obj, old(builds))] else old(normals))
        && builds == old(builds) + (if rebuild && obj.hasNormals then 1 else 0)
        && trace == old(trace) + (if rebuild && !obj.hasNormals then [] else [AnimatorUpdate(normals[obj], bindPose), NormalsDraw(obj, normals[obj])])
    {
      var normalData: Option<Built> := if obj in normals then Some(normals[obj]) else None;
      if normalData.None? || changed {
        normalData := if obj.hasNormals then Some(Built(obj, builds)) else None;
        if normalData.Some? {
          normals := normals[obj := normalData.value];
          builds := builds + 1;
        }
      }
      if normalData.Some? {
        trace := trace + [AnimatorUpdate(normalData.value, bindPose), NormalsDraw(obj, normalData.value)];
      }
    }
  }
}
