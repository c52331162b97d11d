/**
 * The scene's display-mode state machine, as values.
 *
 * The display fields of the scene loader fall into groups that toggle
 * together; each group is a small datatype and each toggle of the scene is a
 * function from a group before to the group after. The class
 * `Scene.SceneLoader` keeps the same fields and its toggle methods are proved
 * to follow these functions.
 */
module DisplayModes {

  /** The modulus of the wireframe cycle; 5 would make the normals case reachable. */
  const WireframeModulus: int := 4

  /** Java's `%` on `int`, which truncates toward zero. */
  function JavaRem(a: int, b: int): (r: int)
    requires b > 0
    ensures a >= 0 ==> 0 <= r < b
    ensures a < 0 ==> -b < r <= 0
  {
    if a >= 0 then a % b else -((-a) % b)
  }

  // ---------------------------------------------------------------- groups

  /** `drawwMode` and the four flags it selects. */
  datatype WireGroup = WireGroup(drawwMode: int, drawWireframe: bool, drawPoints: bool, drawSkeleton: bool, drawNormals: bool)
  datatype TextureGroup = TextureGroup(drawTextures: bool, drawColors: bool)
  datatype LightGroup = LightGroup(drawLighting: bool, rotatingLight: bool)
  datatype AnimationGroup = AnimationGroup(doAnimation: bool, showBindPose: bool)
  datatype StereoGroup = StereoGroup(isStereoscopic: bool, isAnaglyph: bool, isVRGlasses: bool)
  datatype BlendGroup = BlendGroup(isBlendingEnabled: bool, isBlendingForced: bool)

  /** All display fields of the scene loader. */
  datatype Flags = Flags(
    wire: WireGroup,
    drawBoundingBox: bool,
    textures: TextureGroup,
    lighting: LightGroup,
    animation: AnimationGroup,
    isCollision: bool,
    stereo: StereoGroup,
    blending: BlendGroup)

  /** The field initialisers of the scene loader. */
  const Default: Flags := Flags(
    WireGroup(0, false, false, false, false),
    false,
    TextureGroup(true, true),
    LightGroup(true, true),
    AnimationGroup(true, false),
    false,
    StereoGroup(false, false, false),
    BlendGroup(true, false))

  // ---------------------------------------------------------------- modes

  datatype WireMode = Faces | Wireframe | PointCloud | Skeleton
  datatype TextureMode = TexturesAndColors | ColorsOnly | NoColors
  datatype LightMode = RotatingLight | StaticLight | LightsOff
  datatype StereoMode = Mono | Anaglyph | VRGlasses
  datatype BlendMode = Blending | XRay | NoBlending

  function TextureModeOf(g: TextureGroup): TextureMode
  {
    if g.drawTextures && g.drawColors then TexturesAndColors
    else if g.drawColors then ColorsOnly
    else NoColors
  }

  function LightModeOf(g: LightGroup): LightMode
  {
    if g.drawLighting && g.rotatingLight then RotatingLight
    else if g.drawLighting then StaticLight
    else LightsOff
  }

  function StereoModeOf(g: StereoGroup): StereoMode
  {
    if !g.isStereoscopic then Mono
    else if g.isAnaglyph then Anaglyph
    else VRGlasses
  }

  function BlendModeOf(g: BlendGroup): BlendMode
  {
    if g.isBlendingEnabled && !g.isBlendingForced then Blending
    else if g.isBlendingForced then XRay
    else NoBlending
  }

  // ------------------------------------------------------------ invariants

  /** The wireframe group agrees with the mode counter: at most one of the three is on. */
  predicate WireframeConsistent(g: WireGroup)
  {
    && 0 <= g.drawwMode < WireframeModulus
    && !g.drawNormals
    && g.drawWireframe == (g.drawwMode == 1)
    && g.drawPoints == (g.drawwMode == 2)
    && g.drawSkeleton == (g.drawwMode == 3)
  }

  function WireModeOf(g: WireGroup): WireMode
    requires WireframeConsistent(g)
  {
    if g.drawwMode == 1 then Wireframe
    else if g.drawwMode == 2 then PointCloud
    else if g.drawwMode == 3 then Skeleton
    else Faces
  }

  /** Off, anaglyph and VR glasses are mutually exclusive and both stereo modes imply stereo. */
  predicate StereoConsistent(g: StereoGroup)
  {
    && (g.isAnaglyph ==> g.isStereoscopic)
    && (g.isVRGlasses ==> g.isStereoscopic)
    && !(g.isAnaglyph && g.isVRGlasses)
    && (g.isStereoscopic ==> g.isAnaglyph || g.isVRGlasses)
  }

  /** What every toggle preserves (texture loading included). */
  predicate Inv(f: Flags)
  {
    && WireframeConsistent(f.wire)
    && (f.blending.isBlendingForced ==> f.blending.isBlendingEnabled)
    && (f.lighting.rotatingLight ==> f.lighting.drawLighting)
    && StereoConsistent(f.stereo)
    && f.animation.showBindPose == !f.animation.doAnimation
  }

  // --------------------------------------------------------------- toggles

  /** Steps the wireframe mode counter and sets exactly the flag of the new mode. */
  function NextWireframe(g: WireGroup): (r: WireGroup)
    ensures r.drawwMode == JavaRem(g.drawwMode + 1, WireframeModulus)
    ensures 0 <= g.drawwMode ==> WireframeConsistent(r)
    ensures !r.drawNormals
    ensures !(r.drawWireframe && r.drawPoints) && !(r.drawWireframe && r.drawSkeleton) && !(r.drawPoints && r.drawSkeleton)
  {
    var mode := JavaRem(g.drawwMode + 1, WireframeModulus);
    var cleared := WireGroup(mode, false, false, false, false);
    if mode == 1 then cleared.(drawWireframe := true)
    else if mode == 2 then cleared.(drawPoints := true)
    else if mode == 3 then cleared.(drawSkeleton := true)
    else if mode == 4 then cleared.(drawWireframe := true, drawNormals := true)
    else cleared
  }

  function NextWireMode(m: WireMode): WireMode
  {
    match m
    case Faces => Wireframe
    case Wireframe => PointCloud
    case PointCloud => Skeleton
    case Skeleton => Faces
  }

  /** Texture and colour flags cycle (on, on) -> (off, on) -> (off, off) -> (on, on). */
  function NextTextures(g: TextureGroup): (r: TextureGroup)
    ensures r.drawTextures ==> r.drawColors
    ensures TextureModeOf(r) == match TextureModeOf(g)
                                case TexturesAndColors => ColorsOnly
                                case ColorsOnly => NoColors
                                case NoColors => TexturesAndColors
  {
    if g.drawTextures && g.drawColors then TextureGroup(false, true)
    else if g.drawColors then TextureGroup(false, false)
    else TextureGroup(true, true)
  }

  /** Lighting cycles rotating -> static -> off -> rotating. */
  function NextLighting(g: LightGroup): (r: LightGroup)
    ensures r.rotatingLight ==> r.drawLighting
    ensures LightModeOf(r) == match LightModeOf(g)
                              case RotatingLight => StaticLight
                              case StaticLight => LightsOff
                              case LightsOff => RotatingLight
  {
    if g.drawLighting && g.rotatingLight then g.(rotatingLight := false)
    else if g.drawLighting && !g.rotatingLight then g.(drawLighting := false)
    else LightGroup(true, true)
  }

  /** Animation flips, and the bind pose is shown exactly when animation is off. */
  function NextAnimation(g: AnimationGroup): (r: AnimationGroup)
    ensures r.doAnimation == !g.doAnimation
    ensures r.showBindPose == !r.doAnimation
  {
    if !g.doAnimation then AnimationGroup(true, false)
    else AnimationGroup(false, true)
  }

  /** Stereoscopy cycles off -> anaglyph -> VR glasses -> off. */
  function NextStereoscopic(g: StereoGroup): (r: StereoGroup)
    ensures StereoConsistent(r)
    ensures StereoModeOf(r) == match StereoModeOf(g)
                               case Mono => Anaglyph
                               case Anaglyph => VRGlasses
                               case VRGlasses => Mono
  {
    if !g.isStereoscopic then StereoGroup(true, true, false)
    else if g.isAnaglyph then g.(isAnaglyph := false, isVRGlasses := true)
    else StereoGroup(false, false, false)
  }

  /** Blending cycles (enabled, unforced) -> X-ray (enabled, forced) -> disabled -> (enabled, unforced). */
  function NextBlending(g: BlendGroup): (r: BlendGroup)
    ensures r.isBlendingForced ==> r.isBlendingEnabled
    ensures BlendModeOf(r) == match BlendModeOf(g)
                              case Blending => XRay
                              case XRay => NoBlending
                              case NoBlending => Blending
  {
    if g.isBlendingEnabled && !g.isBlendingForced then BlendGroup(true, true)
    else if g.isBlendingForced then BlendGroup(false, false)
    else BlendGroup(true, false)
  }

  // ------------------------------------------------------ toggle sequences

  datatype Toggle =
    | ToggleWireframe | ToggleBoundingBox | ToggleTextures | ToggleLighting | ToggleAnimation
    | ToggleCollision | ToggleStereoscopic | ToggleBlending | TextureLoaded

  /** One scene operation on the flags; loading a texture turns textures on and leaves colours alone. */
  function Apply(f: Flags, t: Toggle): Flags
  {
    match t
    case ToggleWireframe => f.(wire := NextWireframe(f.wire))
    case ToggleBoundingBox => f.(drawBoundingBox := !f.drawBoundingBox)
    case ToggleTextures => f.(textures := NextTextures(f.textures))
    case ToggleLighting => f.(lighting := NextLighting(f.lighting))
    case ToggleAnimation => f.(animation := NextAnimation(f.animation))
    case ToggleCollision => f.(isCollision := !f.isCollision)
    case ToggleStereoscopic => f.(stereo := NextStereoscopic(f.stereo))
    case ToggleBlending => f.(blending := NextBlending(f.blending))
    case TextureLoaded => f.(textures := f.textures.(drawTextures := true))
  }

  /** The flags after applying the toggles in order. */
  function Run(f: Flags, ts: seq<Toggle>): Flags
    decreases |ts|
  {
    if ts == [] then f else Run(Apply(f, ts[0]), ts[1..])
  }

  // ---------------------------------------------------------------- lemmas

  lemma DefaultIsConsistent()
    ensures Inv(Default)
    ensures WireModeOf(Default.wire) == Faces && TextureModeOf(Default.textures) == TexturesAndColors
    ensures LightModeOf(Default.lighting) == RotatingLight && StereoModeOf(Default.stereo) == Mono
    ensures BlendModeOf(Default.blending) == Blending
  {
  }

  /** Every single toggle keeps the invariant. */
  lemma ApplyKeepsInv(f: Flags, t: Toggle)
    requires Inv(f)
    ensures Inv(Apply(f, t))
  {
  }

  /** Any sequence of toggles from a consistent state ends in a consistent state. */
  lemma {:induction false} RunKeepsInv(f: Flags, ts: seq<Toggle>)
    requires Inv(f)
    ensures Inv(Run(f, ts))
    decreases |ts|
  {
    if ts != [] {
      ApplyKeepsInv(f, ts[0]);
      RunKeepsInv(Apply(f, ts[0]), ts[1..]);
    }
  }

  /** The "normals" branch of the wireframe switch is dead: the counter never reaches 4. */
  lemma NormalsModeUnreachable(g: WireGroup)
    ensures NextWireframe(g).drawwMode != 4
    ensures !NextWireframe(g).drawNormals
  {
  }

  /** The wireframe toggle follows the four-mode cycle, and four toggles restore the group. */
  lemma WireframeCycle(g: WireGroup)
    requires WireframeConsistent(g)
    ensures WireModeOf(NextWireframe(g)) == NextWireMode(WireModeOf(g))
    ensures NextWireframe(NextWireframe(NextWireframe(NextWireframe(g)))) == g
  {
  }

  /** Three texture toggles restore the group whenever textures imply colours. */
  lemma TexturesCycle(g: TextureGroup)
    requires g.drawTextures ==> g.drawColors
    ensures NextTextures(NextTextures(NextTextures(g))) == g
  {
  }

  lemma LightingCycle(g: LightGroup)
    requires g.rotatingLight ==> g.drawLighting
    ensures NextLighting(NextLighting(NextLighting(g))) == g
  {
  }

  lemma StereoscopicCycle(g: StereoGroup)
    requires StereoConsistent(g)
    ensures NextStereoscopic(NextStereoscopic(NextStereoscopic(g))) == g
  {
  }

  /** From the default, blending goes to X-ray, then off, then back to the default. */
  lemma BlendingCycle(g: BlendGroup)
    requires g.isBlendingForced ==> g.isBlendingEnabled
    ensures NextBlending(NextBlending(NextBlending(g))) == g
    ensures g == Default.blending ==>
      && NextBlending(g) == BlendGroup(true, true)
      && NextBlending(NextBlending(g)) == BlendGroup(false, false)
  {
  }

  /** Texture loading can leave textures on with colours off, so "textures imply colours" is not invariant. */
  lemma TextureLoadBreaksTexturesImplyColors()
    ensures var f := Run(Default, [ToggleTextures, ToggleTextures, TextureLoaded]);
            f.textures.drawTextures && !f.textures.drawColors
  {
    var f1 := Apply(Default, ToggleTextures);
    var f2 := Apply(f1, ToggleTextures);
    assert [ToggleTextures, ToggleTextures, TextureLoaded][1..] == [ToggleTextures, TextureLoaded];
    assert [ToggleTextures, TextureLoaded][1..] == [TextureLoaded];
    assert Run(f2, [TextureLoaded]) == Apply(f2, TextureLoaded);
  }
}
