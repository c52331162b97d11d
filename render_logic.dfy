/**
 * The decisions the model renderer takes each call and each frame, as values:
 * the projection and skybox cycles, the zoom guard, the rolling
 * frames-per-second counter, which passes a frame draws, how scene and
 * renderer flags combine, which branch draws an object, and how the texture
 * cache is filled from an object's sub-meshes. `Renderer.ModelRenderer` is
 * proved to follow these functions; the lemmas here state what they promise.
 */
module RenderLogic {
  import opened Geometry
  import opened SceneObjects
  import DisplayModes

  // ------------------------------------------------------------ projection

  datatype Projection = Perspective | Isometric | Orthographic | Free

  /** `toggleProjection`: perspective, isometric, orthographic, free, and round again. */
  function NextProjection(p: Projection): Projection
  {
    match p
    case Perspective => Isometric
    case Isometric => Orthographic
    case Orthographic => Free
    case Free => Perspective
  }

  /** The projection after `n` toggles. */
  function ProjectionAfter(p: Projection, n: nat): Projection
  {
    if n == 0 then p else NextProjection(ProjectionAfter(p, n - 1))
  }

  /** The projections whose zoom is honoured. */
  predicate IsParallel(p: Projection)
  {
    p == Orthographic || p == Isometric
  }

  // ---------------------------------------------------------------- skybox

  /** The smallest and largest skybox index of the cycle (-3 extras, -2 plain, -1 inverted, 0 and 1 skyboxes). */
  const FirstSkyBoxId: int := -3
  const LastSkyBoxId: int := 1

  /** `toggleSkyBox`: the next index, wrapping every index above 1 to -3. */
  function NextSkyBox(id: int): int
  {
    if id + 1 > LastSkyBoxId then FirstSkyBoxId else id + 1
  }

  function SkyBoxAfter(id: int, n: nat): int
  {
    if n == 0 then id else NextSkyBox(SkyBoxAfter(id, n - 1))
  }

  predicate InSkyBoxCycle(id: int)
  {
    FirstSkyBoxId <= id <= LastSkyBoxId
  }

  /** What `drawSkyBox` does for an index. */
  datatype SkyBoxAction =
    | DrawExtras            // -3: background colour, then axis and grids
    | ClearToBackground     // -2
    | ClearToInverse        // -1: the inverted background colour
    | DrawCubeMap(index: nat)
    | NoBackground          // an index outside every branch, or skyboxes switched off
    | SkyBoxesMissing       // the skybox table is consulted before the surface created it

  /**
   * The branch of `drawSkyBox`; `tableSize` is the length of the skybox table,
   * absent until the surface is created. Reading the length of an absent table
   * raises, which is the last case.
   */
  function SkyBoxActionOf(id: int, isDrawSkyBox: bool, tableSize: Option<nat>): SkyBoxAction
  {
    if id == -3 then DrawExtras
    else if id == -2 then ClearToBackground
    else if id == -1 then ClearToInverse
    else if !isDrawSkyBox || id < 0 then NoBackground
    else if tableSize.None? then SkyBoxesMissing
    else if id < tableSize.value then DrawCubeMap(id)
    else NoBackground
  }

  // ------------------------------------------------------------------ zoom

  /** `setZoom`'s guard: only parallel projections, and only a zoom strictly between 0 and 10. */
  predicate ZoomAccepted(p: Projection, zoom: real)
  {
    IsParallel(p) && 0.0 < zoom < 10.0
  }

  function ZoomAfter(p: Projection, zoom: real, requested: real): real
  {
    if ZoomAccepted(p, requested) then requested else zoom
  }

  /** A zoom request, with the projection in force when it is made. */
  datatype ZoomRequest =
    | SetZoom(p: Projection, value: real)
    | AddZoom(p: Projection, delta: real)

  function ZoomStep(zoom: real, r: ZoomRequest): real
  {
    match r
    case SetZoom(p, value) => ZoomAfter(p, zoom, value)
    case AddZoom(p, delta) => ZoomAfter(p, zoom, zoom + delta)
  }

  function ZoomRun(zoom: real, rs: seq<ZoomRequest>): real
    decreases |rs|
  {
    if |rs| == 0 then zoom else ZoomRun(ZoomStep(zoom, rs[0]), rs[1..])
  }

  // ------------------------------------------------------------------- FPS

  /** The frames-per-second fields: window start (-1 before the first frame), last rate, frames counted. */
  datatype FpsCounter = FpsCounter(time: int, fps: int, counter: int)

  const FpsInitial: FpsCounter := FpsCounter(-1, 0, 0)

  /** The length of the counting window, in milliseconds. */
  const FpsWindow: int := 1000

  /** The `finally` block of a frame at time `now`: the new counters and whether an FPS event fires. */
  function FpsTick(c: FpsCounter, now: int): (FpsCounter, bool)
  {
    if c.time == -1 then (c.(time := now, counter := c.counter + 1), false)
    else if now > c.time + FpsWindow then (FpsCounter(now, c.counter, 1), true)
    else (c.(counter := c.counter + 1), false)
  }

  /** The counters after a frame at each of the given times. */
  function FpsRun(c: FpsCounter, times: seq<int>): FpsCounter
    decreases |times|
  {
    if |times| == 0 then c else FpsTick(FpsRun(c, times[..|times| - 1]), times[|times| - 1]).0
  }

  /** An FPS event: the frame that fired it and the rate it carries. */
  datatype Report = Report(frame: nat, fps: int)

  /** The events fired over frames at the given times. */
  function FpsReports(c: FpsCounter, times: seq<int>): seq<Report>
    decreases |times|
  {
    if |times| == 0 then []
    else
      var n := |times| - 1;
      var before := FpsReports(c, times[..n]);
      var tick := FpsTick(FpsRun(c, times[..n]), times[n]);
      if tick.1 then before + [Report(n, tick.0.fps)] else before
  }

  // ---------------------------------------------------------------- passes

  /** A drawing pass over the scene's objects. */
  datatype Pass = Mono | AnaglyphLeft | AnaglyphRight | GlassesLeft | GlassesRight

  /**
   * The passes `onDrawFrame` draws: one without stereoscopy; both eyes
   * through colour filters with anaglyph, right first when the switch is set;
   * the left then the right half of the screen with VR glasses; nothing when
   * stereoscopy is on with neither mode.
   */
  function Passes(g: DisplayModes.StereoGroup, anaglyphSwitch: bool): seq<Pass>
  {
    if !g.isStereoscopic then [Mono]
    else if g.isAnaglyph then (if anaglyphSwitch then [AnaglyphRight, AnaglyphLeft] else [AnaglyphLeft, AnaglyphRight])
    else if g.isVRGlasses then [GlassesLeft, GlassesRight]
    else []
  }

  /** The switch flips on every anaglyph frame and only then. */
  function SwitchAfter(g: DisplayModes.StereoGroup, anaglyphSwitch: bool): bool
  {
    if g.isStereoscopic && g.isAnaglyph then !anaglyphSwitch else anaglyphSwitch
  }

  /** The colour mask of a frame: blending forced makes the scene see-through. */
  datatype ColorMask = Opaque | SeeThrough | NoMask

  function FrameMask(b: DisplayModes.BlendGroup): ColorMask
  {
    if b.isBlendingEnabled && b.isBlendingForced then SeeThrough else Opaque
  }

  /** VR-glasses passes draw without a colour mask; the others use the frame's. */
  function PassMask(pass: Pass, frame: ColorMask): ColorMask
  {
    if pass == GlassesLeft || pass == GlassesRight then NoMask else frame
  }

  // ----------------------------------------------------------------- flags

  /** The renderer's own switches. */
  datatype RendererFlags = RendererFlags(lights: bool, wireframe: bool, textures: bool, colors: bool, animation: bool)

  const RendererDefaults: RendererFlags := RendererFlags(true, false, true, true, true)

  /** The flags one pass draws with. */
  datatype Effective = Effective(doAnimation: bool, drawLighting: bool, drawWireframe: bool, drawTextures: bool, drawColors: bool)

  /** Each renderer switch can only veto its scene flag, except wireframe, which either side turns on. */
  function EffectiveFlags(scene: DisplayModes.Flags, r: RendererFlags): Effective
  {
    Effective(
      scene.animation.doAnimation && r.animation,
      scene.lighting.drawLighting && r.lights,
      scene.wire.drawWireframe || r.wireframe,
      scene.textures.drawTextures && r.textures,
      scene.textures.drawColors && r.colors)
  }

  // ---------------------------------------------------------------- object

  /** The ways `drawObject` can draw an object, in the order it tries them. */
  datatype Branch = PointPrimitive | WireframeBranch | PointCloudBranch | SkeletonBranch | SolidBranch

  /**
   * The branch for an object: a point primitive is always drawn as points;
   * otherwise wireframe wins for objects with faces, then the scene's point
   * cloud mode, then the skeleton of an animated model, then the solid.
   */
  function ChooseBranch(mode: Primitive, drawWireframe: bool, drawPoints: bool, drawSkeleton: bool, animated: bool): Branch
  {
    if mode == Points then PointPrimitive
    else if drawWireframe && !IsPointOrLine(mode) then WireframeBranch
    else if drawPoints then PointCloudBranch
    else if drawSkeleton && animated then SkeletonBranch
    else SolidBranch
  }

  /** Whether the object's box is drawn: boxes on and a solid object, or the selected object. */
  predicate DrawsBoundingBox(drawBoundingBox: bool, solid: bool, selected: bool)
  {
    (drawBoundingBox && solid) || selected
  }

  /** The rebuild rule of the wireframe, skeleton and normals caches. */
  predicate Rebuilds(cached: bool, changed: bool)
  {
    !cached || changed
  }

  // -------------------------------------------------------------- textures

  /**
   * The texture scan of an object's sub-meshes: the texture cache keyed by
   * byte-array identity, the sub-meshes with their GL texture names, the
   * arrays uploaded so far in order, the texture name last looked up, and
   * the object's own texture bytes.
   */
  datatype TextureScan = TextureScan(
    cache: map<array<bv8>, int>,
    elements: seq<Element>,
    uploads: seq<array<bv8>>,
    last: Option<int>,
    objectData: array?<bv8>)

  /** Whether a sub-mesh carries texture bytes at all. */
  predicate Textured(e: Element)
  {
    e.hasMaterial && e.textureData != null
  }

  /**
   * One sub-mesh: skipped without texture bytes; looked up when its bytes are
   * cached; otherwise uploaded under the name `gl` gives, which goes into the
   * sub-mesh's material, the cache and the object's own texture bytes.
   */
  function ScanStep(s: TextureScan, i: nat, gl: array<bv8> -> int): TextureScan
    requires i < |s.elements|
  {
    var e := s.elements[i];
    if !Textured(e) then s
    else if e.textureData in s.cache then s.(last := Some(s.cache[e.textureData]))
    else
      var name := gl(e.textureData);
      TextureScan(
        s.cache[e.textureData := name],
        s.elements[i := e.(textureId := name)],
        s.uploads + [e.textureData],
        Some(name),
        e.textureData)
  }

  /** The scan of the first `n` sub-meshes. */
  function ScanUpTo(s: TextureScan, n: nat, gl: array<bv8> -> int): (r: TextureScan)
    requires n <= |s.elements|
    ensures |r.elements| == |s.elements|
  {
    if n == 0 then s else ScanStep(ScanUpTo(s, n - 1, gl), n - 1, gl)
  }

  /** The texture of an object without sub-meshes: looked up, and uploaded when it has bytes not yet cached. */
  function ObjectTexture(cache: map<array<bv8>, int>, data: array?<bv8>, gl: array<bv8> -> int): (Option<int>, map<array<bv8>, int>)
  {
    if data != null && data in cache then (Some(cache[data]), cache)
    else if data == null then (None, cache)
    else (Some(gl(data)), cache[data := gl(data)])
  }

  // ================================================================ lemmas

  /** Four toggles restore the projection and no fewer do. */
  lemma ProjectionCycle(p: Projection)
    ensures ProjectionAfter(p, 4) == p
    ensures ProjectionAfter(p, 1) != p && ProjectionAfter(p, 2) != p && ProjectionAfter(p, 3) != p
    ensures ProjectionAfter(Perspective, 1) == Isometric && ProjectionAfter(Perspective, 2) == Orthographic
    ensures ProjectionAfter(Perspective, 3) == Free
  {
  }

  /** The cycle is periodic: toggling `n` times lands where `n` modulo 4 toggles do. */
  lemma {:induction false} ProjectionAfterMod(p: Projection, n: nat)
    ensures ProjectionAfter(p, n) == ProjectionAfter(p, n % 4)
    decreases n
  {
    if n >= 4 {
      ProjectionAfterMod(p, n - 4);
      ProjectionAfterShift(p, n - 4);
      ProjectionCycle(ProjectionAfter(p, n - 4));
      assert (n - 4) % 4 == n % 4;
    }
  }

  lemma {:induction false} ProjectionAfterShift(p: Projection, n: nat)
    ensures ProjectionAfter(p, n + 4) == ProjectionAfter(ProjectionAfter(p, n), 4)
    decreases n
  {
    if n > 0 {
      ProjectionAfterShift(p, n - 1);
      ProjectionAfterCommutes(ProjectionAfter(p, n - 1), 4);
    }
  }

  lemma ProjectionAfterCommutes(p: Projection, n: nat)
    ensures ProjectionAfter(NextProjection(p), n) == NextProjection(ProjectionAfter(p, n))
  {
  }

  /** Every index of the cycle steps to another index of the cycle. */
  lemma SkyBoxStaysInCycle(id: int)
    requires InSkyBoxCycle(id)
    ensures InSkyBoxCycle(NextSkyBox(id))
  {
  }

  /** From any index in the cycle, any number of toggles stays in the cycle. */
  lemma {:induction false} SkyBoxAfterInCycle(id: int, n: nat)
    requires InSkyBoxCycle(id)
    ensures InSkyBoxCycle(SkyBoxAfter(id, n))
    decreases n
  {
    if n > 0 {
      SkyBoxAfterInCycle(id, n - 1);
      SkyBoxStaysInCycle(SkyBoxAfter(id, n - 1));
    }
  }

  /** The cycle from 0 is 1, -3, -2, -1, 0: five toggles restore any index of the cycle and no fewer do. */
  lemma SkyBoxCycle(id: int)
    requires InSkyBoxCycle(id)
    ensures SkyBoxAfter(id, 5) == id
    ensures forall k :: 0 < k < 5 ==> SkyBoxAfter(id, k) != id
    ensures SkyBoxAfter(0, 1) == 1 && SkyBoxAfter(0, 2) == -3 && SkyBoxAfter(0, 3) == -2 && SkyBoxAfter(0, 4) == -1
  {
    assert SkyBoxAfter(id, 1) == NextSkyBox(id);
    assert SkyBoxAfter(id, 2) == NextSkyBox(NextSkyBox(id));
    assert SkyBoxAfter(id, 3) == NextSkyBox(NextSkyBox(NextSkyBox(id)));
    assert SkyBoxAfter(id, 4) == NextSkyBox(NextSkyBox(NextSkyBox(NextSkyBox(id))));
  }

  /** An index stored from outside the cycle: anything from 1 up wraps to -3, anything below -3 climbs by one. */
  lemma SkyBoxOutsideCycle(id: int)
    requires !InSkyBoxCycle(id)
    ensures id > LastSkyBoxId ==> NextSkyBox(id) == FirstSkyBoxId
    ensures id < FirstSkyBoxId ==> NextSkyBox(id) == id + 1
  {
  }

  /** Every index of the cycle draws something once the surface exists and skyboxes are on. */
  lemma SkyBoxCycleAlwaysDraws(id: int)
    requires InSkyBoxCycle(id)
    ensures SkyBoxActionOf(id, true, Some(2)) != NoBackground
    ensures SkyBoxActionOf(id, true, Some(2)) != SkyBoxesMissing
    ensures SkyBoxActionOf(id, true, Some(2)).DrawCubeMap? <==> 0 <= id
  {
  }

  /** A zoom that changes is always strictly between 0 and 10, and only parallel projections change it. */
  lemma ZoomAfterBounds(p: Projection, zoom: real, requested: real)
    ensures ZoomAfter(p, zoom, requested) != zoom ==> IsParallel(p) && 0.0 < ZoomAfter(p, zoom, requested) < 10.0
    ensures !IsParallel(p) ==> ZoomAfter(p, zoom, requested) == zoom
    ensures ZoomAccepted(p, requested) ==> ZoomAfter(p, zoom, requested) == requested
  {
  }

  /** Starting inside (0, 10), as the initial zoom of 1 is, every sequence of requests stays inside. */
  lemma {:induction false} ZoomStaysInRange(zoom: real, rs: seq<ZoomRequest>)
    requires 0.0 < zoom < 10.0
    ensures 0.0 < ZoomRun(zoom, rs) < 10.0
    decreases |rs|
  {
    if |rs| > 0 {
      ZoomStaysInRange(ZoomStep(zoom, rs[0]), rs[1..]);
    }
  }

  /** The first frame starts the window; a later one either reports and restarts it or counts one more frame. */
  lemma FpsTickCases(c: FpsCounter, now: int)
    ensures c.time == -1 ==> FpsTick(c, now) == (FpsCounter(now, c.fps, c.counter + 1), false)
    ensures c.time != -1 ==> (FpsTick(c, now).1 <==> now > c.time + FpsWindow)
    ensures FpsTick(c, now).1 ==> FpsTick(c, now).0 == FpsCounter(now, c.counter, 1)
    ensures c.time != -1 && !FpsTick(c, now).1 ==> FpsTick(c, now).0 == c.(counter := c.counter + 1)
  {
  }

  /** What the counters say after a run of frames: the window start and the frames counted since. */
  predicate FpsWindowState(c: FpsCounter, times: seq<int>, reports: seq<Report>)
  {
    && |times| > 0
    && (if |reports| == 0 then c.time == times[0] && c.counter == |times|
        else
          var last := reports[|reports| - 1];
          && last.frame < |times|
          && c.time == times[last.frame]
          && c.counter == |times| - last.frame)
  }

  /** Consecutive reports are more than a window apart, and each reports the frames since the previous one. */
  predicate ReportsSpaced(times: seq<int>, reports: seq<Report>)
  {
    && (forall i :: 0 <= i < |reports| ==> reports[i].frame < |times|)
    && (|reports| > 0 ==> reports[0].fps == reports[0].frame)
    && (forall i :: 0 < i < |reports| ==>
          && reports[i - 1].frame < reports[i].frame
          && reports[i].fps == reports[i].frame - reports[i - 1].frame
          && times[reports[i].frame] > times[reports[i - 1].frame] + FpsWindow)
  }

  /**
   * From the initial counters, over frames at non-negative times: the first
   * report carries the number of frames before it, each later one the number
   * of frames since the previous report, and reports are more than a second
   * apart.
   */
  lemma {:induction false} FpsReportsCountFrames(times: seq<int>)
    requires forall i :: 0 <= i < |times| ==> times[i] >= 0
    ensures ReportsSpaced(times, FpsReports(FpsInitial, times))
    ensures |times| > 0 ==> FpsWindowState(FpsRun(FpsInitial, times), times, FpsReports(FpsInitial, times))
    decreases |times|
  {
    if |times| == 1 {
      assert times[..0] == [];
    } else if |times| > 1 {
      var prefix := times[..|times| - 1];
      assert forall i :: 0 <= i < |prefix| ==> prefix[i] == times[i];
      FpsReportsCountFrames(prefix);
      FpsFrameStep(times);
    }
  }

  /** The inductive step: one more frame after a run of at least one. */
  lemma FpsFrameStep(times: seq<int>)
    requires |times| >= 2
    requires forall i :: 0 <= i < |times| ==> times[i] >= 0
    requires ReportsSpaced(times[..|times| - 1], FpsReports(FpsInitial, times[..|times| - 1]))
    requires FpsWindowState(FpsRun(FpsInitial, times[..|times| - 1]), times[..|times| - 1], FpsReports(FpsInitial, times[..|times| - 1]))
    ensures ReportsSpaced(times, FpsReports(FpsInitial, times))
    ensures FpsWindowState(FpsRun(FpsInitial, times), times, FpsReports(FpsInitial, times))
  {
    var n := |times| - 1;
    var prefix := times[..n];
    var c := FpsRun(FpsInitial, prefix);
    var reports := FpsReports(FpsInitial, prefix);
    assert forall i :: 0 <= i < |prefix| ==> prefix[i] == times[i];
    FpsWindowStarted(prefix, c, reports);
    FpsUnfold(times, c, reports);
    if times[n] > c.time + FpsWindow {
      FpsReportKeeps(times, c, reports, reports + [Report(n, c.counter)]);
    } else {
      FpsCountKeeps(times, c, reports);
    }
  }

  /** One frame of the run, unfolded: it counts the frame or reports and restarts the window. */
  lemma FpsUnfold(times: seq<int>, c: FpsCounter, reports: seq<Report>)
    requires |times| >= 1 && c.time >= 0
    requires c == FpsRun(FpsInitial, times[..|times| - 1])
    requires reports == FpsReports(FpsInitial, times[..|times| - 1])
    ensures var now := times[|times| - 1];
            if now > c.time + FpsWindow then
              FpsRun(FpsInitial, times) == FpsCounter(now, c.counter, 1)
              && FpsReports(FpsInitial, times) == reports + [Report(|times| - 1, c.counter)]
            else
              FpsRun(FpsInitial, times) == c.(counter := c.counter + 1)
              && FpsReports(FpsInitial, times) == reports
  {
  }

  /** After the first frame the window has started. */
  lemma FpsWindowStarted(times: seq<int>, c: FpsCounter, reports: seq<Report>)
    requires forall i :: 0 <= i < |times| ==> times[i] >= 0
    requires FpsWindowState(c, times, reports)
    ensures c.time >= 0
  {
    if |reports| > 0 {
      assert c.time == times[reports[|reports| - 1].frame];
    }
  }

  /** A frame within the window counts one more frame and reports nothing. */
  lemma FpsCountKeeps(times: seq<int>, c: FpsCounter, reports: seq<Report>)
    requires |times| >= 2 && c.time >= 0
    requires ReportsSpaced(times[..|times| - 1], reports)
    requires FpsWindowState(c, times[..|times| - 1], reports)
    requires times[|times| - 1] <= c.time + FpsWindow
    ensures ReportsSpaced(times, reports)
    ensures FpsWindowState(c.(counter := c.counter + 1), times, reports)
  {
    var prefix := times[..|times| - 1];
    assert forall i :: 0 <= i < |prefix| ==> prefix[i] == times[i];
  }

  /** A frame past the window reports the frames counted and starts a new window. */
  lemma FpsReportKeeps(times: seq<int>, c: FpsCounter, reports: seq<Report>, next: seq<Report>)
    requires |times| >= 2 && c.time >= 0
    requires ReportsSpaced(times[..|times| - 1], reports)
    requires FpsWindowState(c, times[..|times| - 1], reports)
    requires times[|times| - 1] > c.time + FpsWindow
    requires next == reports + [Report(|times| - 1, c.counter)]
    ensures ReportsSpaced(times, next)
    ensures FpsWindowState(FpsCounter(times[|times| - 1], c.counter, 1), times, next)
  {
    var n := |times| - 1;
    var prefix := times[..n];
    assert forall i :: 0 <= i < n ==> prefix[i] == times[i];
    forall i | 0 < i < |next|
      ensures && next[i - 1].frame < next[i].frame
              && next[i].fps == next[i].frame - next[i - 1].frame
              && times[next[i].frame] > times[next[i - 1].frame] + FpsWindow
    {
      if i < |reports| {
        assert next[i] == reports[i] && next[i - 1] == reports[i - 1];
      } else {
        assert next[i - 1] == reports[|reports| - 1];
      }
    }
  }

  /** Without stereoscopy one pass is drawn; the stereo modes draw each eye once; stereo with neither mode draws none. */
  lemma PassesCases(g: DisplayModes.StereoGroup, sw: bool)
    ensures !g.isStereoscopic ==> Passes(g, sw) == [Mono]
    ensures g.isStereoscopic && g.isAnaglyph ==>
      multiset(Passes(g, sw)) == multiset{AnaglyphLeft, AnaglyphRight}
    ensures g.isStereoscopic && !g.isAnaglyph && g.isVRGlasses ==> Passes(g, sw) == [GlassesLeft, GlassesRight]
    ensures g.isStereoscopic && !g.isAnaglyph && !g.isVRGlasses ==> Passes(g, sw) == []
  {
  }

  /** With consistent stereo flags a frame always draws at least one pass. */
  lemma ConsistentStereoDrawsSomething(g: DisplayModes.StereoGroup, sw: bool)
    requires DisplayModes.StereoConsistent(g)
    ensures 1 <= |Passes(g, sw)| <= 2
  {
  }

  /** Two anaglyph frames in a row draw the eyes in opposite orders. */
  lemma AnaglyphAlternates(g: DisplayModes.StereoGroup, sw: bool)
    requires g.isStereoscopic && g.isAnaglyph
    ensures var first := Passes(g, sw);
            var second := Passes(g, SwitchAfter(g, sw));
            |first| == 2 && |second| == 2 && first[0] == second[1] && first[1] == second[0]
  {
  }

  /** Outside anaglyph the switch is left alone. */
  lemma SwitchOnlyInAnaglyph(g: DisplayModes.StereoGroup, sw: bool)
    ensures SwitchAfter(g, sw) != sw <==> g.isStereoscopic && g.isAnaglyph
  {
  }

  /** With the renderer's defaults the scene's flags decide alone. */
  lemma DefaultRendererIsNeutral(f: DisplayModes.Flags)
    ensures EffectiveFlags(f, RendererDefaults) ==
      Effective(f.animation.doAnimation, f.lighting.drawLighting, f.wire.drawWireframe,
                f.textures.drawTextures, f.textures.drawColors)
  {
  }

  /** A renderer switch can turn a pass's flag off (or wireframe on), never the other way. */
  lemma RendererSwitchesOnlyVeto(f: DisplayModes.Flags, r: RendererFlags)
    ensures EffectiveFlags(f, r).drawLighting ==> f.lighting.drawLighting
    ensures EffectiveFlags(f, r).drawTextures ==> f.textures.drawTextures
    ensures EffectiveFlags(f, r).drawColors ==> f.textures.drawColors
    ensures EffectiveFlags(f, r).doAnimation ==> f.animation.doAnimation
    ensures f.wire.drawWireframe ==> EffectiveFlags(f, r).drawWireframe
  {
  }

  /** Each branch is taken exactly when its condition holds and no earlier one's does. */
  lemma ChooseBranchPriority(mode: Primitive, w: bool, p: bool, s: bool, animated: bool)
    ensures ChooseBranch(mode, w, p, s, animated) == PointPrimitive <==> mode == Points
    ensures ChooseBranch(mode, w, p, s, animated) == WireframeBranch <==> w && !IsPointOrLine(mode)
    ensures ChooseBranch(mode, w, p, s, animated) == PointCloudBranch <==>
      mode != Points && !(w && !IsPointOrLine(mode)) && p
    ensures ChooseBranch(mode, w, p, s, animated) == SkeletonBranch <==>
      mode != Points && !(w && !IsPointOrLine(mode)) && !p && s && animated
    ensures ChooseBranch(mode, w, p, s, animated) == SolidBranch <==>
      mode != Points && !(w && !IsPointOrLine(mode)) && !p && !(s && animated)
  {
  }

  /** The selected object always gets its box; with boxes off no other object does. */
  lemma BoundingBoxRule(drawBoundingBox: bool, solid: bool, selected: bool)
    ensures selected ==> DrawsBoundingBox(drawBoundingBox, solid, selected)
    ensures !drawBoundingBox ==> (DrawsBoundingBox(drawBoundingBox, solid, selected) <==> selected)
    ensures !solid ==> (DrawsBoundingBox(drawBoundingBox, solid, selected) <==> selected)
  {
  }

  /** What the scan of the first `n` sub-meshes promises, relative to the scan's start. */
  predicate ScanFacts(s: TextureScan, r: TextureScan, n: nat)
    requires n <= |s.elements| == |r.elements|
  {
    ScanCacheFacts(s, r, n) && ScanUploadLog(s, r)
  }

  /** The cache and the sub-meshes after scanning the first `n`. */
  predicate ScanCacheFacts(s: TextureScan, r: TextureScan, n: nat)
    requires n <= |s.elements| == |r.elements|
  {
    // cached names are never replaced, and every cached key was cached before or uploaded
    && (forall k :: k in s.cache ==> k in r.cache && r.cache[k] == s.cache[k])
    && (forall k :: k in r.cache ==> k in s.cache || k in r.uploads)
    // every textured sub-mesh scanned so far has its bytes cached
    && (forall i :: 0 <= i < n && Textured(s.elements[i]) ==> s.elements[i].textureData in r.cache)
    // sub-meshes keep their bytes and material; only scanned ones can get a new name
    && (forall i :: 0 <= i < |r.elements| ==>
          && r.elements[i].textureData == s.elements[i].textureData
          && r.elements[i].hasMaterial == s.elements[i].hasMaterial)
    && (forall i :: n <= i < |r.elements| ==> r.elements[i] == s.elements[i])
  }

  /** Uploads extend the start's, and each new upload was uncached before, is cached now, and happens once. */
  predicate ScanUploadLog(s: TextureScan, r: TextureScan)
  {
    && |s.uploads| <= |r.uploads|
    && r.uploads[..|s.uploads|] == s.uploads
    && (forall j :: |s.uploads| <= j < |r.uploads| ==> r.uploads[j] !in s.cache && r.uploads[j] in r.cache)
    && (forall j, k :: |s.uploads| <= j < k < |r.uploads| ==> r.uploads[j] != r.uploads[k])
  }

  /** The scan caches every textured sub-mesh's bytes, uploads only bytes absent from the cache, each once. */
  lemma {:induction false} ScanUpToFacts(s: TextureScan, n: nat, gl: array<bv8> -> int)
    requires n <= |s.elements|
    ensures ScanFacts(s, ScanUpTo(s, n, gl), n)
    decreases n
  {
    if n > 0 {
      ScanUpToFacts(s, n - 1, gl);
      ScanStepFacts(s, n - 1, gl);
    }
  }

  /** One more sub-mesh keeps the scan's promises. */
  lemma ScanStepFacts(s: TextureScan, i: nat, gl: array<bv8> -> int)
    requires i < |s.elements|
    requires ScanFacts(s, ScanUpTo(s, i, gl), i)
    ensures ScanFacts(s, ScanUpTo(s, i + 1, gl), i + 1)
  {
    var r := ScanUpTo(s, i, gl);
    assert ScanUpTo(s, i + 1, gl) == ScanStep(r, i, gl);
    var e := r.elements[i];
    assert e == s.elements[i];
    if Textured(e) && e.textureData !in r.cache {
      ScanUploadFacts(s, r, i, gl);
    }
  }

  /** An uploading step keeps both halves of the scan's promises. */
  lemma ScanUploadFacts(s: TextureScan, r: TextureScan, i: nat, gl: array<bv8> -> int)
    requires i < |s.elements| == |r.elements|
    requires ScanFacts(s, r, i)
    requires Textured(r.elements[i]) && r.elements[i].textureData !in r.cache
    ensures ScanFacts(s, ScanStep(r, i, gl), i + 1)
  {
    ScanUploadCaches(s, r, i, gl);
    ScanUploadLogs(s, r, i, gl);
  }

  lemma ScanUploadCaches(s: TextureScan, r: TextureScan, i: nat, gl: array<bv8> -> int)
    requires i < |s.elements| == |r.elements|
    requires ScanFacts(s, r, i)
    requires Textured(r.elements[i]) && r.elements[i].textureData !in r.cache
    ensures ScanCacheFacts(s, ScanStep(r, i, gl), i + 1)
  {
    assert r.elements[i] == s.elements[i];
  }

  /** The new bytes were in neither the starting cache nor the earlier uploads. */
  lemma ScanUploadLogs(s: TextureScan, r: TextureScan, i: nat, gl: array<bv8> -> int)
    requires i < |s.elements| == |r.elements|
    requires ScanFacts(s, r, i)
    requires Textured(r.elements[i]) && r.elements[i].textureData !in r.cache
    ensures ScanUploadLog(s, ScanStep(r, i, gl))
  {
    var e := r.elements[i];
    var t := ScanStep(r, i, gl);
    assert t.uploads == r.uploads + [e.textureData];
    assert t.uploads[..|s.uploads|] == r.uploads[..|s.uploads|];
    assert e.textureData !in s.cache;
    forall j | |s.uploads| <= j < |r.uploads|
      ensures r.uploads[j] != e.textureData
    {
      assert r.uploads[j] in r.cache;
    }
  }

  /** A second scan over what the first left behind uploads nothing and changes nothing. */
  lemma {:induction false} RescanUploadsNothing(s: TextureScan, gl: array<bv8> -> int)
    ensures var r := ScanUpTo(s, |s.elements|, gl);
            var again := ScanUpTo(r.(last := None), |r.elements|, gl);
            again.uploads == r.uploads && again.cache == r.cache && again.elements == r.elements
  {
    var r := ScanUpTo(s, |s.elements|, gl);
    ScanUpToFacts(s, |s.elements|, gl);
    var start := r.(last := None);
    RescanUpTo(start, |start.elements|, gl);
  }

  /** Scanning sub-meshes whose bytes are all cached only looks names up. */
  lemma {:induction false} RescanUpTo(s: TextureScan, n: nat, gl: array<bv8> -> int)
    requires n <= |s.elements|
    requires forall i :: 0 <= i < |s.elements| && Textured(s.elements[i]) ==> s.elements[i].textureData in s.cache
    ensures var r := ScanUpTo(s, n, gl);
            r.uploads == s.uploads && r.cache == s.cache && r.elements == s.elements && r.objectData == s.objectData
    decreases n
  {
    if n > 0 {
      RescanUpTo(s, n - 1, gl);
    }
  }

  /** The object-level texture: cached bytes are looked up, new bytes uploaded once, no bytes means no texture. */
  lemma ObjectTextureCases(cache: map<array<bv8>, int>, data: array?<bv8>, gl: array<bv8> -> int)
    ensures data == null ==> ObjectTexture(cache, data, gl) == (None, cache)
    ensures data != null ==> data in ObjectTexture(cache, data, gl).1
    ensures data != null && data in cache ==> ObjectTexture(cache, data, gl) == (Some(cache[data]), cache)
    ensures data != null && data !in cache ==>
      ObjectTexture(cache, data, gl).0 == Some(gl(data)) && ObjectTexture(cache, data, gl).1 == cache[data := gl(data)]
  {
  }
}
