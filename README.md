# Scene loader and renderer of the Android 3D model engine, in Dafny

This project models the two classes at the heart of the engine's viewer:

- `SceneLoader` holds the scene. It keeps the list of loaded objects and the GUI objects, the display-mode flags the user toggles (wireframe, textures, lighting, animation, stereoscopy, blending, collisions), the selection, and the per-object caches used by the rescale algorithm.
- `ModelRenderer` draws a frame. It keeps the projection, zoom, skybox index, renderer-side switches and FPS counters. It holds the lazily filled caches of derived drawables (wireframes, skeletons, normals, bounding boxes), the texture cache keyed by byte-array identity, and the "log once" set. It also keeps the fatal-error latch.

Both classes are imperative. Each becomes a Dafny `class` with the same fields and with methods that update them in place. A method's contract states its new state, either directly or through specification functions and predicates (`Rescaled`, `TexturesLoaded`, `DrawnAs`, `ListDrawn`). The properties of those functions are proved as lemmas, such as the toggle cycles, the flag invariant, and the idempotence of rescaling and of the texture scan. A draw method returns the steps it appended to the trace as a ghost out-parameter (`steps`, or `parts` with one entry per object). This lets its caller say which steps were drawn, for which object and in which order.

| file | module | contents |
|---|---|---|
| `geometry.dfy` | `Geometry` | vectors, extents (`Dimensions`), transforms, orientations as opaque values, GL draw modes |
| `scene_objects.dfy` | `SceneObjects` | the mutable `Object3D` and `Camera` classes the two core classes operate on |
| `display_modes.dfy` | `DisplayModes` | the scene's display flags as values; one function per toggle; the invariant every toggle keeps |
| `loader_dispatch.dfy` | `LoaderDispatch` | ASCII lower-casing, suffix and substring tests, the parser choice of `init`, Blender detection |
| `rescaling.dfy` | `Rescaling` | the union box, scale factor, first-seen caches and stability of the rescale algorithm |
| `scene_loader.dfy` | `Scene` | class `SceneLoader` and its event handling |
| `render_logic.dfy` | `RenderLogic` | projection, skybox and zoom cycles; FPS bookkeeping; pass selection; effective flags; draw-branch choice; the texture scan |
| `model_renderer.dfy` | `Renderer` | class `ModelRenderer`: the frame, the passes, the skybox, the per-object draw and its caches |

A frame's visible effect is recorded as a `trace` of draw steps, and each main pass appended to `passLog` with its colour mask. Time, texture upload and cube-map loading are parameters, and so are the exceptions the model covers: a fault at the top of a frame (`fault`) and a per-object fault (`faults`). Exceptions elsewhere are listed under "## Left out". The renderer's collaborators (builders of wireframes, skeletons, normals and bounding boxes; the animator) appear only as named steps in the trace, and each cached drawable is a `Built(source, serial)` value.

In the rescale algorithm, the largest center coordinate is the signed maximum over x, y and z (`SceneLoader.java` lines 875-880), not the largest absolute value.

## Model

| member | source | states |
|---|---|---|
| DisplayModes.JavaRem | engine/src/main/java/org/andresoviedo/android_3d_model_engine/services/SceneLoader.java:333 | Java's truncating `%`: non-negative for a non-negative dividend, within (-b, 0] for a negative one |
| DisplayModes.NextWireframe | engine/src/main/java/org/andresoviedo/android_3d_model_engine/services/SceneLoader.java:329-363 | the mode counter becomes (old + 1) rem 4; normals are off; at most one of wireframe, points and skeleton is on; from a non-negative counter the group is consistent with its mode |
| DisplayModes.NextTextures | engine/src/main/java/org/andresoviedo/android_3d_model_engine/services/SceneLoader.java:386-400 | textures and colours step through (on,on), (off,on), (off,off); textures imply colours afterwards |
| DisplayModes.NextLighting | engine/src/main/java/org/andresoviedo/android_3d_model_engine/services/SceneLoader.java:402-415 | lighting steps rotating, static, off; a rotating light implies lighting afterwards |
| DisplayModes.NextAnimation | engine/src/main/java/org/andresoviedo/android_3d_model_engine/services/SceneLoader.java:417-428 | animation flips, and the bind pose is shown exactly when animation is off |
| DisplayModes.NextStereoscopic | engine/src/main/java/org/andresoviedo/android_3d_model_engine/services/SceneLoader.java:525-545 | stereoscopy steps off, anaglyph, VR glasses; the result never has both modes and each mode implies stereo |
| DisplayModes.NextBlending | engine/src/main/java/org/andresoviedo/android_3d_model_engine/services/SceneLoader.java:579-593 | blending steps enabled, X-ray (forced), disabled; forced implies enabled afterwards |
| DisplayModes.DefaultIsConsistent | engine/src/main/java/org/andresoviedo/android_3d_model_engine/services/SceneLoader.java:87-163 | the field initialisers satisfy the flag invariant: faces, textures and colours, rotating light, mono, blending |
| DisplayModes.ApplyKeepsInv | engine/src/main/java/org/andresoviedo/android_3d_model_engine/services/SceneLoader.java:329-601 | every toggle, and texture loading, keeps the flag invariant |
| DisplayModes.RunKeepsInv | engine/src/main/java/org/andresoviedo/android_3d_model_engine/services/SceneLoader.java:329-601 | any sequence of toggles from a consistent state ends in a consistent state |
| DisplayModes.NormalsModeUnreachable | engine/src/main/java/org/andresoviedo/android_3d_model_engine/services/SceneLoader.java:331-359 | with modulus 4 the "normals" case 4 is never reached and normals stay off |
| DisplayModes.WireframeCycle | engine/src/main/java/org/andresoviedo/android_3d_model_engine/services/SceneLoader.java:329-363 | the wireframe toggle follows faces, wireframe, points, skeleton, and four toggles restore the group |
| DisplayModes.TexturesCycle | engine/src/main/java/org/andresoviedo/android_3d_model_engine/services/SceneLoader.java:386-400 | three texture toggles restore any group in which textures imply colours |
| DisplayModes.LightingCycle | engine/src/main/java/org/andresoviedo/android_3d_model_engine/services/SceneLoader.java:402-415 | three lighting toggles restore any group in which a rotating light implies lighting |
| DisplayModes.StereoscopicCycle | engine/src/main/java/org/andresoviedo/android_3d_model_engine/services/SceneLoader.java:525-545 | three stereo toggles restore any consistent group |
| DisplayModes.BlendingCycle | engine/src/main/java/org/andresoviedo/android_3d_model_engine/services/SceneLoader.java:579-593 | three blending toggles restore the group; from the default the states are X-ray, then disabled |
| DisplayModes.TextureLoadBreaksTexturesImplyColors | engine/src/main/java/org/andresoviedo/android_3d_model_engine/services/SceneLoader.java:707-718 | two texture toggles then a texture load leave textures on with colours off, so "textures imply colours" is not invariant |
| LoaderDispatch.ToLower | engine/src/main/java/org/andresoviedo/android_3d_model_engine/services/SceneLoader.java:220 | the result has the same length, every letter is ASCII-folded, no upper-case letter is left, and a locator without upper-case letters is returned unchanged |
| LoaderDispatch.Contains | engine/src/main/java/org/andresoviedo/android_3d_model_engine/services/SceneLoader.java:235 | substring search holds exactly when the needle occurs at some position |
| LoaderDispatch.ChooseLoader | engine/src/main/java/org/andresoviedo/android_3d_model_engine/services/SceneLoader.java:215-228 | no locator launches nothing; type code 0 always picks OBJ; without an `.obj` suffix or code 0, STL is picked iff the suffix is `.stl` or the code is 1; failing that, DAE iff the suffix is `.dae` or the code is 2; nothing is launched only when no suffix matches and the code is not 0, 1 or 2 |
| LoaderDispatch.ToLowerIdempotent | engine/src/main/java/org/andresoviedo/android_3d_model_engine/services/SceneLoader.java:220 | lower-casing twice is lower-casing once |
| LoaderDispatch.ChooseLoaderIgnoresCase | engine/src/main/java/org/andresoviedo/android_3d_model_engine/services/SceneLoader.java:220-227 | the parser choice depends on the locator only up to letter case |
| LoaderDispatch.SuffixCheckedBeforeLaterTypeCode | engine/src/main/java/org/andresoviedo/android_3d_model_engine/services/SceneLoader.java:220-221 | an `.obj` suffix wins whatever the type code |
| LoaderDispatch.DaeSuffixWithStlCode | engine/src/main/java/org/andresoviedo/android_3d_model_engine/services/SceneLoader.java:221-224 | STL is tried before DAE: a `.dae` locator given STL's type code 1 loads as STL |
| LoaderDispatch.TypeCodeDecidesWithoutSuffix | engine/src/main/java/org/andresoviedo/android_3d_model_engine/services/SceneLoader.java:220-227 | without a known suffix, codes 0, 1, 2 pick OBJ, STL, DAE and any other code picks nothing |
| LoaderDispatch.BlenderExamples | engine/src/main/java/org/andresoviedo/android_3d_model_engine/services/SceneLoader.java:235 | an illustration of `IsBlender`: a tool named "Blender 2.79" is recognised and a missing tool is not; the general rule is `Contains` |
| Rescaling.MaxLength | engine/src/main/java/org/andresoviedo/android_3d_model_engine/services/SceneLoader.java:866-872 | the largest axis extent: no smaller than any extent and equal to one of them |
| Rescaling.MaxLocation | engine/src/main/java/org/andresoviedo/android_3d_model_engine/services/SceneLoader.java:875-880 | 0 for at most one object; otherwise the largest (signed) center coordinate |
| Rescaling.ChooseScaling | engine/src/main/java/org/andresoviedo/android_3d_model_engine/services/SceneLoader.java:884-890 | degenerate iff the denominator is 0; skip only for a factor strictly inside (0.5, 1.5); otherwise the factor times the denominator is the size and the factor lies outside the band |
| Rescaling.UnionIsTight | engine/src/main/java/org/andresoviedo/android_3d_model_engine/services/SceneLoader.java:803-865 | the union box encloses every object's extents and centers, and each of its bounds is attained by some object |
| Rescaling.CacheFirstSeenSpec | engine/src/main/java/org/andresoviedo/android_3d_model_engine/services/SceneLoader.java:832-839 | the cache gains exactly the visited keys, keeps every cached value, and stores a new key's value from its first visit |
| Rescaling.CacheFirstSeenSaturated | engine/src/main/java/org/andresoviedo/android_3d_model_engine/services/SceneLoader.java:908-915 | visiting only cached keys leaves the cache unchanged |
| Rescaling.RescaleIdempotent | engine/src/main/java/org/andresoviedo/android_3d_model_engine/services/SceneLoader.java:792-934 | a second rescale of the same list decides the same, whatever the objects report by then, and leaves both caches as the first left them |
| Rescaling.ScaleByOutsideBand | engine/src/main/java/org/andresoviedo/android_3d_model_engine/services/SceneLoader.java:884-890 | for a positive denominator and size, the rescale is skipped iff 0.5 times the denominator < size < 1.5 times the denominator |
| Rescaling.TwoObjectExample | engine/src/main/java/org/andresoviedo/android_3d_model_engine/services/SceneLoader.java:792-934 | an illustration of `Rescale`: two objects spanning 200 units with farthest center 50, target 100, get the factor 0.4; the general rule is `ScaleByOutsideBand` |
| Scene.SelectionAfter | engine/src/main/java/org/andresoviedo/android_3d_model_engine/services/SceneLoader.java:779-786 | hitting the current selection deselects; hitting another object selects it; a null hit on another selection is left to the Java null-pointer path |
| Scene.LightAngle | engine/src/main/java/org/andresoviedo/android_3d_model_engine/services/SceneLoader.java:282-289 | the light angle lies in [0, 360) |
| Scene.LightAnglePeriodic | engine/src/main/java/org/andresoviedo/android_3d_model_engine/services/SceneLoader.java:285-287 | the angle has period 5000 ms, grows strictly within a period and is 0 exactly at its start |
| Scene.CollisionTwiceOnSameObject | engine/src/main/java/org/andresoviedo/android_3d_model_engine/services/SceneLoader.java:779-786 | a hit always changes the selection state, and a second hit on the same object undoes the first |
| Scene.SceneLoader.constructor | engine/src/main/java/org/andresoviedo/android_3d_model_engine/services/SceneLoader.java:84-205 | the default flags, which satisfy the invariant; empty object lists; no selection; empty caches; a fresh unchanged camera |
| Scene.SceneLoader.Init | engine/src/main/java/org/andresoviedo/android_3d_model_engine/services/SceneLoader.java:211-229 | the camera is marked changed; a locator launches the parser `ChooseLoader` picks; no locator launches nothing |
| Scene.SceneLoader.SetWire | engine/src/main/java/org/andresoviedo/android_3d_model_engine/services/SceneLoader.java:333-360 | the wireframe group is stored and no other flag changes |
| Scene.SceneLoader.ToggleWireframe | engine/src/main/java/org/andresoviedo/android_3d_model_engine/services/SceneLoader.java:329-363 | the flags become `NextWireframe` of the old ones, other flags unchanged, invariant kept |
| Scene.SceneLoader.ToggleBoundingBox | engine/src/main/java/org/andresoviedo/android_3d_model_engine/services/SceneLoader.java:373-376 | the bounding-box flag flips, nothing else changes, invariant kept |
| Scene.SceneLoader.ToggleTextures | engine/src/main/java/org/andresoviedo/android_3d_model_engine/services/SceneLoader.java:386-400 | the flags become `NextTextures` of the old ones, invariant kept |
| Scene.SceneLoader.ToggleLighting | engine/src/main/java/org/andresoviedo/android_3d_model_engine/services/SceneLoader.java:402-415 | the flags become `NextLighting` of the old ones, invariant kept |
| Scene.SceneLoader.ToggleAnimation | engine/src/main/java/org/andresoviedo/android_3d_model_engine/services/SceneLoader.java:417-428 | the flags become `NextAnimation` of the old ones, invariant kept |
| Scene.SceneLoader.ToggleCollision | engine/src/main/java/org/andresoviedo/android_3d_model_engine/services/SceneLoader.java:520-523 | the collision flag flips, invariant kept |
| Scene.SceneLoader.StepStereoscopic | engine/src/main/java/org/andresoviedo/android_3d_model_engine/services/SceneLoader.java:526-542 | the stereo flags become `NextStereoscopic` of the old ones, invariant kept |
| Scene.SceneLoader.ToggleStereoscopic | engine/src/main/java/org/andresoviedo/android_3d_model_engine/services/SceneLoader.java:525-545 | the stereo step, the camera marked changed, and "user has interacted" cleared exactly when entering VR from anaglyph |
| Scene.SceneLoader.ToggleBlending | engine/src/main/java/org/andresoviedo/android_3d_model_engine/services/SceneLoader.java:579-593 | the flags become `NextBlending` of the old ones, invariant kept |
| Scene.SceneLoader.AddObject | engine/src/main/java/org/andresoviedo/android_3d_model_engine/services/SceneLoader.java:300-308 | the object is appended to the scene's objects |
| Scene.SceneLoader.AddGUIObject | engine/src/main/java/org/andresoviedo/android_3d_model_engine/services/SceneLoader.java:310-319 | the object is appended to the GUI objects |
| Scene.SceneLoader.OnLoad | engine/src/main/java/org/andresoviedo/android_3d_model_engine/services/SceneLoader.java:618-630 | the object is animated first when animation is on, then appended |
| Scene.SceneLoader.FixCoordinateSystem | engine/src/main/java/org/andresoviedo/android_3d_model_engine/services/SceneLoader.java:231-244 | every Blender object's orientation is replaced by the X-axis quarter turn and others keep theirs; the fix flag is set iff it was set or some object matched |
| Scene.SceneLoader.Rescale | engine/src/main/java/org/andresoviedo/android_3d_model_engine/services/SceneLoader.java:792-934 | nothing changes for an empty list; otherwise the caches become `Rescaled` of the old ones, and every object is either its cached original times the factor or untouched, as `Decide` says |
| Scene.SceneLoader.UnionOfOriginals | engine/src/main/java/org/andresoviedo/android_3d_model_engine/services/SceneLoader.java:803-865 | the extremes loop returns the union of the objects' first-seen extents, and the extents cache becomes `CacheFirstSeen` |
| Scene.SceneLoader.CachedDimensions | engine/src/main/java/org/andresoviedo/android_3d_model_engine/services/SceneLoader.java:832-839 | a cached original is returned as is; otherwise the current extents are cached and returned |
| Scene.SceneLoader.ScaleFromOriginals | engine/src/main/java/org/andresoviedo/android_3d_model_engine/services/SceneLoader.java:906-934 | every object becomes its cached original transform times the factor, and the transform cache becomes `CacheFirstSeen` |
| Scene.SceneLoader.ScaleFromOriginal | engine/src/main/java/org/andresoviedo/android_3d_model_engine/services/SceneLoader.java:908-928 | one object: its original is cached on first sight and it becomes that original times the factor |
| Scene.SceneLoader.OnLoadComplete | engine/src/main/java/org/andresoviedo/android_3d_model_engine/services/SceneLoader.java:633-665 | a sole object is marked centered and otherwise no centered flag changes; exactly the Blender objects get the quarter turn and the fix flag is set iff it was or one matched; for a non-empty list the caches become `Rescaled` with the unit size and every object is either its cached original times the `Decide` factor or untouched; an empty list leaves the caches alone |
| Scene.SceneLoader.OnCollision | engine/src/main/java/org/andresoviedo/android_3d_model_engine/services/SceneLoader.java:771-788 | the user has interacted; the point is appended iff collisions are on and it is non-null; the selection follows `SelectionAfter` with exactly one selection event |
| Scene.SceneLoader.SetSelectedObject | engine/src/main/java/org/andresoviedo/android_3d_model_engine/services/SceneLoader.java:702-705 | the selection is stored and exactly one selection event is fired |
| Scene.SceneLoader.OnTouch | engine/src/main/java/org/andresoviedo/android_3d_model_engine/services/SceneLoader.java:727-770 | the user has interacted; a selected object's orientation is composed with a rotation about the camera direction (ROTATE) or the drag axis (MOVE), and is left alone otherwise |
| Scene.SceneLoader.LoadTexture | engine/src/main/java/org/andresoviedo/android_3d_model_engine/services/SceneLoader.java:707-718 | with no object and not exactly one loaded, nothing happens; otherwise the target gets the bytes and textures are turned on, colours left alone; no other object's texture changes |
| Scene.SceneLoader.AnimateLight | engine/src/main/java/org/andresoviedo/android_3d_model_engine/services/SceneLoader.java:282-289 | a rotating light takes the angle for the uptime; otherwise it keeps its rotation |
| Scene.SceneLoader.AnimateCamera | engine/src/main/java/org/andresoviedo/android_3d_model_engine/services/SceneLoader.java:291-298 | the camera orbits one step unless the user has interacted |
| Scene.SceneLoader.OnDrawFrame | engine/src/main/java/org/andresoviedo/android_3d_model_engine/services/SceneLoader.java:265-280 | the light angle, the camera orbit step, and one animator update per object when animation is on |
| RenderLogic.ProjectionCycle | engine/src/main/java/org/andresoviedo/android_3d_model_engine/view/ModelRenderer.java:203-218 | perspective, isometric, orthographic, free: four toggles are the identity and fewer are not |
| RenderLogic.ProjectionAfterMod | engine/src/main/java/org/andresoviedo/android_3d_model_engine/view/ModelRenderer.java:203-218 | toggling n times lands where n rem 4 toggles do |
| RenderLogic.ProjectionAfterCommutes | engine/src/main/java/org/andresoviedo/android_3d_model_engine/view/ModelRenderer.java:203-218 | one toggle before n toggles equals one toggle after them |
| RenderLogic.SkyBoxStaysInCycle | engine/src/main/java/org/andresoviedo/android_3d_model_engine/view/ModelRenderer.java:273-279 | a skybox index in [-3, 1] stays in [-3, 1] after a toggle |
| RenderLogic.SkyBoxAfterInCycle | engine/src/main/java/org/andresoviedo/android_3d_model_engine/view/ModelRenderer.java:273-279 | any number of toggles from [-3, 1] stays in [-3, 1] |
| RenderLogic.SkyBoxCycle | engine/src/main/java/org/andresoviedo/android_3d_model_engine/view/ModelRenderer.java:273-279 | 0, 1, -3, -2, -1, 0: period exactly 5 inside the cycle |
| RenderLogic.SkyBoxOutsideCycle | engine/src/main/java/org/andresoviedo/android_3d_model_engine/view/ModelRenderer.java:273-279 | an index above 1 wraps to -3; one below -3 climbs by one |
| RenderLogic.SkyBoxCycleAlwaysDraws | engine/src/main/java/org/andresoviedo/android_3d_model_engine/view/ModelRenderer.java:562-583 | with two skyboxes built in and skyboxes on, every index of the cycle draws a background; the cube map is drawn iff the index is non-negative |
| RenderLogic.ZoomAfterBounds | engine/src/main/java/org/andresoviedo/android_3d_model_engine/view/ModelRenderer.java:844-854 | zoom changes only under a parallel projection and only to a value in (0, 10); an accepted request is stored |
| RenderLogic.ZoomStaysInRange | engine/src/main/java/org/andresoviedo/android_3d_model_engine/view/ModelRenderer.java:844-858 | from a zoom in (0, 10), such as the initial 1, every sequence of set and add requests stays in (0, 10) |
| RenderLogic.FpsTickCases | engine/src/main/java/org/andresoviedo/android_3d_model_engine/view/ModelRenderer.java:484-496 | the first frame starts the window; later, a report fires iff now > time + 1000, storing the count, restarting at 1 and taking the new time; otherwise the counter grows |
| RenderLogic.FpsReportsCountFrames | engine/src/main/java/org/andresoviedo/android_3d_model_engine/view/ModelRenderer.java:484-496 | over any run of frames, reports are more than a second apart, and each carries the frames since the previous report |
| RenderLogic.PassesCases | engine/src/main/java/org/andresoviedo/android_3d_model_engine/view/ModelRenderer.java:422-475 | mono draws one pass; anaglyph draws each eye once; VR draws left then right; stereo with neither mode draws none |
| RenderLogic.ConsistentStereoDrawsSomething | engine/src/main/java/org/andresoviedo/android_3d_model_engine/view/ModelRenderer.java:422-475 | with consistent stereo flags a frame draws one or two passes |
| RenderLogic.AnaglyphAlternates | engine/src/main/java/org/andresoviedo/android_3d_model_engine/view/ModelRenderer.java:429-459 | two anaglyph frames in a row draw the eyes in opposite orders |
| RenderLogic.SwitchOnlyInAnaglyph | engine/src/main/java/org/andresoviedo/android_3d_model_engine/view/ModelRenderer.java:458 | the anaglyph switch flips iff the frame is anaglyph |
| RenderLogic.DefaultRendererIsNeutral | engine/src/main/java/org/andresoviedo/android_3d_model_engine/view/ModelRenderer.java:508-512 | with the renderer's default switches, the scene's flags alone decide the pass |
| RenderLogic.RendererSwitchesOnlyVeto | engine/src/main/java/org/andresoviedo/android_3d_model_engine/view/ModelRenderer.java:508-512 | animation, lighting, textures and colours need the scene's flag; the scene's wireframe always wins |
| RenderLogic.ChooseBranchPriority | engine/src/main/java/org/andresoviedo/android_3d_model_engine/view/ModelRenderer.java:701-767 | each branch (point object, wireframe of a faced mode, points, animated skeleton, solid) is taken iff its condition holds and no earlier one's does |
| RenderLogic.BoundingBoxRule | engine/src/main/java/org/andresoviedo/android_3d_model_engine/view/ModelRenderer.java:771 | the selected object always gets its box; with boxes off or a non-solid object, only the selection does |
| RenderLogic.ScanUpToFacts | engine/src/main/java/org/andresoviedo/android_3d_model_engine/view/ModelRenderer.java:655-681 | the sub-mesh scan caches every textured sub-mesh's bytes, never replaces a cached name, uploads only uncached bytes and each at most once |
| RenderLogic.RescanUploadsNothing | engine/src/main/java/org/andresoviedo/android_3d_model_engine/view/ModelRenderer.java:655-681 | a second scan over what the first left uploads nothing and changes nothing |
| RenderLogic.RescanUpTo | engine/src/main/java/org/andresoviedo/android_3d_model_engine/view/ModelRenderer.java:664-666 | scanning sub-meshes whose bytes are all cached only looks names up |
| RenderLogic.ObjectTextureCases | engine/src/main/java/org/andresoviedo/android_3d_model_engine/view/ModelRenderer.java:682-694 | no bytes means no texture; cached bytes are looked up; new bytes are uploaded and cached |
| Renderer.Plan | engine/src/main/java/org/andresoviedo/android_3d_model_engine/view/ModelRenderer.java:365-475 | one logged pass per selected pass, in order; the VR passes carry no colour mask and every other pass carries the frame's mask |
| Renderer.KeysOf | engine/src/main/java/org/andresoviedo/android_3d_model_engine/view/ModelRenderer.java:158 | the key set of the log holds exactly the logged keys; it serves `LogsOnceMeans` |
| Renderer.DistinctKeys | engine/src/main/java/org/andresoviedo/android_3d_model_engine/view/ModelRenderer.java:632-635 | a log as long as its key set has no repeated entry |
| Renderer.ModelRenderer.LogsOnceMeans | engine/src/main/java/org/andresoviedo/android_3d_model_engine/view/ModelRenderer.java:632-635 | under the logging invariant, the logged keys are exactly the remembered ones and none is logged twice |
| Renderer.ModelRenderer.constructor | engine/src/main/java/org/andresoviedo/android_3d_model_engine/view/ModelRenderer.java:63-188 | perspective, zoom 1, skybox 0 and on, no skyboxes yet, latch off, switch off, FPS start state, default switches, empty caches and logs |
| Renderer.ModelRenderer.OnSurfaceCreated | engine/src/main/java/org/andresoviedo/android_3d_model_engine/view/ModelRenderer.java:302-326 | one surface-created event; a fresh skybox table of two empty slots |
| Renderer.ModelRenderer.OnSurfaceChanged | engine/src/main/java/org/andresoviedo/android_3d_model_engine/view/ModelRenderer.java:328-343 | the size is stored and one surface-changed event fired |
| Renderer.ModelRenderer.SetProjection | engine/src/main/java/org/andresoviedo/android_3d_model_engine/view/ModelRenderer.java:224-232 | the projection is stored and exactly one projection-changed event fired |
| Renderer.ModelRenderer.ToggleProjection | engine/src/main/java/org/andresoviedo/android_3d_model_engine/view/ModelRenderer.java:203-218 | the projection steps along the cycle with exactly one event |
| Renderer.ModelRenderer.SetZoom | engine/src/main/java/org/andresoviedo/android_3d_model_engine/view/ModelRenderer.java:844-854 | zoom follows `ZoomAfter`; an event fires iff the request is accepted |
| Renderer.ModelRenderer.AddZoom | engine/src/main/java/org/andresoviedo/android_3d_model_engine/view/ModelRenderer.java:856-858 | a set of the old zoom plus the delta |
| Renderer.ModelRenderer.SetSkyBoxId | engine/src/main/java/org/andresoviedo/android_3d_model_engine/view/ModelRenderer.java:265-267 | any index is stored unchecked |
| Renderer.ModelRenderer.ToggleSkyBox | engine/src/main/java/org/andresoviedo/android_3d_model_engine/view/ModelRenderer.java:273-279 | the index steps as `NextSkyBox` and stays in [-3, 1] when it started there |
| Renderer.ModelRenderer.ToggleLights | engine/src/main/java/org/andresoviedo/android_3d_model_engine/view/ModelRenderer.java:261-263 | the lights switch flips and no other switch changes |
| Renderer.ModelRenderer.ToggleWireframe | engine/src/main/java/org/andresoviedo/android_3d_model_engine/view/ModelRenderer.java:285-287 | the wireframe switch flips and no other switch changes |
| Renderer.ModelRenderer.ToggleTextures | engine/src/main/java/org/andresoviedo/android_3d_model_engine/view/ModelRenderer.java:289-291 | the textures switch flips and no other switch changes |
| Renderer.ModelRenderer.ToggleColors | engine/src/main/java/org/andresoviedo/android_3d_model_engine/view/ModelRenderer.java:293-295 | the colours switch flips and no other switch changes |
| Renderer.ModelRenderer.ToggleAnimation | engine/src/main/java/org/andresoviedo/android_3d_model_engine/view/ModelRenderer.java:297-299 | the animation switch flips and no other switch changes |
| Renderer.ModelRenderer.TickFps | engine/src/main/java/org/andresoviedo/android_3d_model_engine/view/ModelRenderer.java:484-496 | the counters follow `FpsTick`, and an FPS event carrying the new rate fires iff it reports |
| Renderer.ModelRenderer.LogOnce | engine/src/main/java/org/andresoviedo/android_3d_model_engine/view/ModelRenderer.java:632-635 | the key is remembered and logged iff it was not remembered before; the logging invariant is kept |
| Renderer.ModelRenderer.PrepareObject | engine/src/main/java/org/andresoviedo/android_3d_model_engine/view/ModelRenderer.java:647-698 | the dirty flag is returned and cleared; with textures drawn, the name is the last one the load looks up and the caches are as `TexturesLoaded` says; without, the name is -1 and no texture state changes; cached names are never replaced |
| Renderer.ModelRenderer.LoadTextures | engine/src/main/java/org/andresoviedo/android_3d_model_engine/view/ModelRenderer.java:650-698 | the caches, uploads, sub-meshes and object bytes end as `TexturesLoaded` says: the scan `ScanUpTo` over all sub-meshes, or the object's own bytes looked up or uploaded once; the name returned is `TextureName` of the old state; the cache only grows and the upload log only extends |
| Renderer.ModelRenderer.DrawPoint | engine/src/main/java/org/andresoviedo/android_3d_model_engine/view/ModelRenderer.java:701-703 | one point-primitive draw |
| Renderer.ModelRenderer.DrawWireframe | engine/src/main/java/org/andresoviedo/android_3d_model_engine/view/ModelRenderer.java:711-726 | the wireframe is rebuilt iff absent or the object changed, then animated and drawn |
| Renderer.ModelRenderer.DrawPointCloud | engine/src/main/java/org/andresoviedo/android_3d_model_engine/view/ModelRenderer.java:730-735 | a points draw followed by the object's own render hook |
| Renderer.ModelRenderer.DrawSkeleton | engine/src/main/java/org/andresoviedo/android_3d_model_engine/view/ModelRenderer.java:738-754 | a half-transparent draw, and the skeleton, rebuilt iff absent or changed, drawn on top |
| Renderer.ModelRenderer.DrawSolid | engine/src/main/java/org/andresoviedo/android_3d_model_engine/view/ModelRenderer.java:757-767 | the render key is logged once, then the object is drawn and its render hook called |
| Renderer.ModelRenderer.DrawBranch | engine/src/main/java/org/andresoviedo/android_3d_model_engine/view/ModelRenderer.java:700-768 | exactly the branch `ChooseBranch` picks is drawn, with the steps `BranchSteps` gives for it; only that branch's cache may change, rebuilt iff absent or the object changed |
| Renderer.ModelRenderer.DrawBoundingBox | engine/src/main/java/org/andresoviedo/android_3d_model_engine/view/ModelRenderer.java:805-822 | the box is built once and never rebuilt, and drawn white iff the object is selected |
| Renderer.ModelRenderer.DrawNormals | engine/src/main/java/org/andresoviedo/android_3d_model_engine/view/ModelRenderer.java:776-793 | normals are rebuilt iff absent or changed; a failed build is not cached; whatever is cached is animated and drawn |
| Renderer.ModelRenderer.DrawDecorations | engine/src/main/java/org/andresoviedo/android_3d_model_engine/view/ModelRenderer.java:770-802 | the steps are `DecorationsDrawn`: after a fault nothing is drawn and its message is logged once; otherwise the box iff `DrawsBoundingBox` holds, then the normals iff the scene shows them and some are cached and kept or built; existing boxes are never replaced |
| Renderer.ModelRenderer.DrawPrepared | engine/src/main/java/org/andresoviedo/android_3d_model_engine/view/ModelRenderer.java:700-802 | a prepared object's steps are `DrawnAs`: its branch's draw, then its decorations; they open with that branch's draw |
| Renderer.ModelRenderer.DrawnOfParts | engine/src/main/java/org/andresoviedo/android_3d_model_engine/view/ModelRenderer.java:700-802 | a branch's draw followed by the decorations is the object's draw, and opens with the branch's draw |
| Renderer.ModelRenderer.DrawDrawable | engine/src/main/java/org/andresoviedo/android_3d_model_engine/view/ModelRenderer.java:647-802 | the dirty flag is cleared; the new steps are `DrawnAs`: the chosen branch's draw, then the decorations, so they open with that branch's draw; a fault's message is logged; the logging invariant is kept |
| Renderer.ModelRenderer.DrawObject | engine/src/main/java/org/andresoviedo/android_3d_model_engine/view/ModelRenderer.java:624-803 | an invisible object changes nothing and draws nothing; a visible one has its id logged; one without a drawer logs the drawer key and draws nothing; one with a drawer draws steps that open with the draw of its `ChooseBranch` branch, as `DrawDrawable` details, and is clean afterwards |
| Renderer.ModelRenderer.DrawAt | engine/src/main/java/org/andresoviedo/android_3d_model_engine/view/ModelRenderer.java:548-549 | drawing object `i` of a list whose first `i` objects are drawn in order and clean extends both facts to the first `i + 1`, the new part being object `i`'s |
| Renderer.ModelRenderer.DrawCleanAt | engine/src/main/java/org/andresoviedo/android_3d_model_engine/view/ModelRenderer.java:624 | drawing object `i` keeps every object's dirty flag or cleans it, logs it if visible, cleans it if drawable, and appends its part |
| Renderer.ModelRenderer.DrawObjects | engine/src/main/java/org/andresoviedo/android_3d_model_engine/view/ModelRenderer.java:546-557 | the trace grows by one part per object in list order, each part the one `PartOpens` gives for that object (`ListDrawn`); every visible object with a drawer is clean afterwards, no object became dirty, the others keep their flag, every visible id is logged |
| Renderer.ModelRenderer.LightSteps | engine/src/main/java/org/andresoviedo/android_3d_model_engine/view/ModelRenderer.java:514-544 | with lighting on, the bulb is drawn iff the light rotates and the light line iff normals are shown; with lighting off nothing is drawn |
| Renderer.ModelRenderer.DrawPass | engine/src/main/java/org/andresoviedo/android_3d_model_engine/view/ModelRenderer.java:499-560 | one logged pass; the debug-skeleton flag flips; the new steps are the light steps of the pass's effective flags, then one part per scene object and then per GUI object, in list order, each opening as `PartOpens` says for that object's visibility, drawer and `ChooseBranch` branch (`PassTraced`, taken on the state before the pass); every drawable object clean afterwards |
| Renderer.ModelRenderer.DrawLitObjects | engine/src/main/java/org/andresoviedo/android_3d_model_engine/view/ModelRenderer.java:508-557 | the new steps are the pass's light steps followed by one part per object of `objects + guiObjects`, as `PassTraced` says on the state before; every drawable object clean, none dirtied, every visible id logged |
| Renderer.ModelRenderer.DrawMono | engine/src/main/java/org/andresoviedo/android_3d_model_engine/view/ModelRenderer.java:421-424 | one logged mono pass with the frame's mask, whose steps are `PassTraced` on the state before it (light steps, then one part per object); then the camera's changed mark is cleared |
| Renderer.ModelRenderer.DrawEye | engine/src/main/java/org/andresoviedo/android_3d_model_engine/view/ModelRenderer.java:429-474 | one pass for one eye: one logged pass, the debug-skeleton flag flipped, every drawable object clean afterwards, and the new steps `PassTraced` on the state before the pass |
| Renderer.ModelRenderer.DrawTwoPasses | engine/src/main/java/org/andresoviedo/android_3d_model_engine/view/ModelRenderer.java:429-474 | two passes logged in the given order with the given mask; the trace grows by the first pass's steps and then the second's, each `PassTraced` on the state before the two passes (`PassesTraced`); the debug-skeleton flag is back where it was |
| Renderer.ModelRenderer.DrawStereo | engine/src/main/java/org/andresoviedo/android_3d_model_engine/view/ModelRenderer.java:427-474 | an anaglyph frame draws right then left if the switch is on, else left then right, and flips the switch; a VR frame draws left then right without a mask; otherwise nothing; the logged passes are `Plan` of `Passes`, and the trace grows by one `PassTraced` list of steps per pass, in order |
| Renderer.ModelRenderer.DrawPasses | engine/src/main/java/org/andresoviedo/android_3d_model_engine/view/ModelRenderer.java:421-475 | the logged passes are `Plan` of `Passes` for the stereo mode and old switch; the switch follows `SwitchAfter`; the camera mark is cleared iff the frame is mono; the trace grows by one list of steps per planned pass, in order |
| Renderer.ModelRenderer.DrawSkyBox | engine/src/main/java/org/andresoviedo/android_3d_model_engine/view/ModelRenderer.java:562-622 | -3 draws the extras, one part per extra in order, under the colours-only flags `ExtrasFlags`; -2 and -1 clear to the background or its inverse; an index in range draws the cube map as `CubeMapDrawn` says; a missing table is reported and draws nothing; anything else draws nothing; the trace is only extended |
| Renderer.ModelRenderer.DrawCubeMap | engine/src/main/java/org/andresoviedo/android_3d_model_engine/view/ModelRenderer.java:583-621 | a built skybox is redrawn, not rebuilt; a missing one is built when its cube map loads; a failed load turns skyboxes off and draws nothing; the trace is only extended |
| Renderer.ModelRenderer.DrawBackdrop | engine/src/main/java/org/andresoviedo/android_3d_model_engine/view/ModelRenderer.java:377-419 | the scene is animated (the camera orbits unless the user interacted), then the skybox is drawn and its steps appended; a missing table is reported and appends nothing |
| Renderer.ModelRenderer.DrawScene | engine/src/main/java/org/andresoviedo/android_3d_model_engine/view/ModelRenderer.java:365-475 | the mask is forced iff blending is enabled and forced; the trace grows by the backdrop's steps and then one list per pass; a missing table stops the frame before any pass; otherwise the passes are the planned ones |
| Renderer.ModelRenderer.FrameBody | engine/src/main/java/org/andresoviedo/android_3d_model_engine/view/ModelRenderer.java:350-483 | the latch is set iff a fault or a missing skybox table occurs; a fault draws nothing; otherwise the frame is drawn |
| Renderer.ModelRenderer.OnDrawFrame | engine/src/main/java/org/andresoviedo/android_3d_model_engine/view/ModelRenderer.java:346-497 | once latched, nothing at all changes; otherwise FPS is counted; without a scene nothing is drawn and the latch is set iff a fault occurs; with a scene the latch follows faults and a missing skybox table, and a fault-free frame is drawn |

## Left out

- All GL calls and the matrix contents are left out, because they are platform float numerics. This covers projection, view and light matrices (`refreshMatrices`), viewports and scissors, the VR half-width viewports, colour-mask writes, depth clears between objects and GUI objects and between anaglyph eyes, and the skybox's clear colour. The model records only which steps are drawn, in which order, and each pass's mask.
- The light position in world space is left out: it only feeds GL uniforms.
- Log lines other than those that update the "log once" set are left out: they are I/O. The error-level log of a per-object `Error` writes nothing to the set and is not modelled.
- Renderer.ModelRenderer.FrameBody: a frame-level exception is raised by a `fault` parameter. The model raises it before the scene is animated, so it does not capture a fault part way through a frame.
- Renderer.ModelRenderer.DrawDrawable: a per-object exception is raised by a `faults` parameter after the branch draw. The model does not capture a failure part way through one object's draw.
- `RendererFactory` is not part of this model. Whether an object has a drawer is the object field `hasDrawer`.
- Materials shared between sub-meshes by reference are modelled as values. A texture name written into one sub-mesh's material is not seen through another sub-mesh sharing it.
- The skybox's `Rescaler.rescale` and the `SKYBOX_SIZE` scale are left out: they touch only geometry. The cube-map load is a parameter `cubeMap`, where -1 means failure.
- Renderer.ModelRenderer.DrawCubeMap: the skybox branch catches any `Throwable` and turns skyboxes off. The model turns them off only when the cube-map load fails (`cubeMap == -1`). A throw from `SkyBox.build` or from the skybox draw is not modelled.
- Renderer.ModelRenderer.SetZoom: zoom is a `real`. Java `float` rounding is not modelled.
- Java integer overflow is not modelled. This covers the FPS counter, the skybox index and the wireframe counter, where overflow would take about 2^31 calls.
- Renderer.ModelRenderer.DrawObject: an object's part of the trace is stated by how it opens (`PartOpens`), not step by step. The full steps are stated by `DrawDrawable` (`DrawnAs`).
- Renderer.ModelRenderer.DrawObjects: each object's part of the trace is stated by how it opens (`PartOpens`: nothing, or the draw of its branch first), not step by step. The full steps of one object are stated by `DrawDrawable` (`DrawnAs`).
- Renderer.ModelRenderer.DrawPass: the objects and GUI objects are drawn as one list, `objects + guiObjects`. The depth clear between the two lists is GL state and is left out.
- Renderer.ModelRenderer.DrawPasses: the trace is stated as one list of steps per pass, in order. What each pass draws (`PassTraced`) is stated one level down, by `DrawMono`, `DrawStereo`, `DrawTwoPasses` and `DrawEye`, and not repeated here, to keep the proof small.
- Renderer.ModelRenderer.DrawScene: the trace is stated as the backdrop's steps followed by the passes' steps. Their content is stated by `DrawSkyBox` and by the pass methods, not repeated here.
- Renderer.ModelRenderer.constructor: the decorations `extras` are a parameter. The source builds exactly four non-solid objects, the axis and the x, y and z grids (ModelRenderer.java lines 110-129). Their geometry is outside the model.
- SceneObjects.Object3D: `visible`, `drawMode`, `animated` and `hasDrawer` are fixed at construction. Their setters (`setVisible`, `setDrawMode` and the like) change objects outside the core, and no core operation calls them.
- LoaderDispatch.ToLower: only ASCII 'A' to 'Z' are folded. Java's `toLowerCase` also folds other letters and can change the length ('İ'). No non-ASCII letter folds to a character of ".obj", ".stl", ".dae" or "blender", so the loader choice is the same.
- Scene.SceneLoader.OnTouch: orientations are opaque. The quaternion for a rotation about the camera direction or the drag axis is a named value, not computed.
- Scene.SceneLoader.FixCoordinateSystem: the orientation set on Blender objects is the named value `XAxisQuarterTurn`. The quaternion itself is not computed.
- `toggleSmooth`, the settings, geometry and joint dialogs, and toasts are left out: they act on mesh data not in the core, or are UI.
- The background parsers launched by `init` are left out. Only which parser is chosen is modelled (`launched`).
- The private `rescale(objs, size)` overload is not modelled, because nothing calls it.
- Scene.SceneLoader.Rescale: when the denominator `maxLength + maxLocation` is zero, Java's float division gives an infinite or NaN factor. The model stops there (`Degenerate`) and changes no object.
- Scene.SceneLoader.Rescale: `Constants` is not part of this model. The target size `Constants.UNIT` is the parameter `unit` of `OnLoadComplete`.
- Scene.SceneLoader.Rescale: each object's current extents are taken as the object field `dimensions`, so their recomputation from mesh data is not modelled.
- Scene.SceneLoader.LoadTexture: reading the bytes behind the URI is a parameter. A failed read is reported as `ReadFailed` and changes nothing, whereas the source throws an `IOException` to its caller.
- Scene.SceneLoader.OnCollision: a collision with no object, while an object is selected, fails in the source on a null dereference after the point is added. The model reports it as `NullHit` and leaves the selection alone.
- `synchronized` and the split between the GL thread and the UI thread are left out: concurrency is not modelled.
- Camera motion (`camera.animate`, `translateCamera`) is modelled only as a count of orbit steps.
- The stereo cameras are left out: they exist only to build view matrices.
- `ModelActivity` is not part of this model: it is Android lifecycle, menus and intent handling.
