# Hoodie viewer customisation engine, in Dafny

This project models the engine behind the 3D hoodie viewer:

- Mesh classification (`MeshUtils`): a mesh name maps to a customisable part (body, hood interior, zipper details) and to the fabric slot it shows (main, lining or none). The part table comes first, then the "Hood_inside" test, then the hardware keywords, then the body default.
- Configuration (`ColorConfig`, `MaterialConfig`): the colour choices, the part table, the fabric options with their texture file names and prices, and the cost of a selection.
- Texture cache (`TextureManager`): every fabric × slot trio of textures, preloaded under the key `"{fabric}_{slot}"`. A lookup falls back from the lining to the main fabric.
- Material pass (`MaterialApplicator`): one walk over a loaded model. Each named mesh's material is cloned on its first pass, with a snapshot of its colour. Hardware then gets a flat colour and a fixed finish. Fabric gets the selected fabric's textures, or a flat fallback when the cache has none.
- Camera (`CameraManager`): preset views, a zoom that refuses a step leaving [10, 100], the orbit controls' clamp of the camera's distance to [40, 100] on every `controls.update()`, the held arrow keys and the rotation they drive, and the frame loop that renders only when something changed.
- Model loader (`ModelLoader`): the URL modifier that replaces the two absent texture tiles with a transparent pixel, the shadow pass, centring the model, and disposal.
- The viewer hook (`UseHoodieModel`): a class whose fields are the hook's refs. Its copies of the classifier (`components/Hoodie/hooks/useHoodieModel.js` lines 11-48), the preloader (lines 64-123), the pass, the presets, the zoom and the URL modifier (lines 463-470) are the same code as the managers'. They are stated once, in the managers' modules, and reused. The module states what differs: the inline lining fallback, the 0.7 initial-distance factor, the pass without a render, and the effects.

Code that changes objects in place is modelled as classes with `modifies` clauses: the pass, the cache, the camera controller, the loader's traversals and the hook. Each method is proved against specification functions. Among these are `ExpectedFinish`/`PassOutcome` for the pass, `PreloadAll` for preloading, `Rotated`, `Zoomed`, `Updated` and `ZoomOutcome` for the camera, and `Classify` for the classifier's loop. Lemmas about those functions state what the engine promises.

A colour is a reference in the rendering library. The pass can make a material show its snapshot object itself (`color = userData.originalColor`), and a later in-place `setHex` then also rewrites the snapshot. The model keeps that sharing as the flag `showsSnapshot` and carries it through every pass. `MaterialApplicator.SnapshotOverwritten` shows the consequence: after a fallback pass, a textured pass and another fallback pass, a body mesh shows white instead of its authored colour.

## Model

| member | source | states |
|---|---|---|
| MeshUtils.SlotOf | components/Hoodie/utils/meshUtils.js:9-14 | the slot is null exactly for zipperDetails and "lining" exactly for hoodInterior |
| MeshUtils.TableLookup | components/Hoodie/utils/meshUtils.js:5-6 | a part the lookup returns is the key of an entry whose list includes the name |
| MeshUtils.Classify | components/Hoodie/utils/meshUtils.js:3-40 | every classification pairs a part with that part's slot, so only zipperDetails has a null slot |
| MeshUtils.GetMeshPartType | components/Hoodie/utils/meshUtils.js:3-40 | the entry loop with early return and the `includes` chain compute the classification `Classify` defines |
| MeshUtils.LookupListed | components/Hoodie/utils/meshUtils.js:5-16 | in a table with disjoint lists, a listed name is found under its own entry, whatever precedes it |
| MeshUtils.LookupUnlisted | components/Hoodie/utils/meshUtils.js:5-19 | the table lookup fails if and only if no list includes the name |
| MeshUtils.LookupOrderIndependent | components/Hoodie/utils/meshUtils.js:5-6 | for disjoint tables with the same entries, `Object.entries` order cannot change the result |
| MeshUtils.TabledNameClassifies | components/Hoodie/utils/meshUtils.js:6-15 | a name in a partMapping list gets that list's part and slot |
| MeshUtils.TableBeatsKeywords | components/Hoodie/utils/meshUtils.js:5-26 | "Trim" and "Stopper" contain hardware keywords yet classify as hoodInterior/lining, because the table wins |
| MeshUtils.HoodInsideBeforeHardware | components/Hoodie/utils/meshUtils.js:20-21 | an untabled name containing "Hood_inside" is hoodInterior/lining |
| MeshUtils.HoodInsideZipperIsLining | components/Hoodie/utils/meshUtils.js:20-23 | "Hood_inside_Zipper" is the lining although it contains "Zipper": the hood test comes first |
| MeshUtils.UntabledHardware | components/Hoodie/utils/meshUtils.js:22-35 | an untabled name with a hardware keyword and no "Hood_inside" is zipperDetails with a null slot |
| MeshUtils.UntabledDefault | components/Hoodie/utils/meshUtils.js:36-38 | every other untabled name is body/main |
| MeshUtils.LowerCaseZipperIsBody | components/Hoodie/utils/meshUtils.js:22-38 | the keyword tests are case-sensitive: "zipper" is body/main |
| ColorConfig.PartMappingDisjoint | components/Hoodie/config/colorConfig.js:21-32 | no mesh name is listed under two parts |
| ColorConfig.BodyNotInterior | components/Hoodie/config/colorConfig.js:22-28 | no body name is a hoodInterior name |
| ColorConfig.BodyNotHardware | components/Hoodie/config/colorConfig.js:22-31 | no body name is a zipperDetails name |
| ColorConfig.InteriorNotHardware | components/Hoodie/config/colorConfig.js:26-31 | no hoodInterior name is a zipperDetails name |
| ColorConfig.PartMappingPlacement | components/Hoodie/config/colorConfig.js:26-31 | "Hood_inside", "Trim" and "Stopper" are hoodInterior only; "Zipper" and every Piping_*/Straps_* name is zipperDetails only |
| ColorConfig.OptionKeysMatchMappingKeys | components/Hoodie/config/colorConfig.js:2-32 | colorOptions and partMapping have the same three part keys, in the same order |
| ColorConfig.ColorOptionsWellFormed | components/Hoodie/config/colorConfig.js:2-18 | every option colour is "#RRGGBB" and option names are unique within each part |
| ColorConfig.BodyOptionsWellFormed | components/Hoodie/config/colorConfig.js:3-7 | the body's three options are well formed |
| ColorConfig.InteriorOptionsWellFormed | components/Hoodie/config/colorConfig.js:8-13 | the hood interior's four options are well formed |
| ColorConfig.HardwareOptionsWellFormed | components/Hoodie/config/colorConfig.js:14-18 | the zipper details' three options are well formed |
| ColorConfig.OptionColorsAre24Bit | components/Hoodie/config/colorConfig.js:2-18 | every option colour denotes a 24-bit RGB value |
| MaterialConfig.GetTexturePaths | components/Hoodie/config/materialConfig.js:37-57 | null exactly when the fabric or the slot is unknown; otherwise the three files `/hoodie-materials/{id}_{kind}_{suffix}.png` |
| MaterialConfig.Get | components/Hoodie/managers/materialApplicator.js:147 | `selections[key]` is the value of an entry with that key, and is absent exactly when no entry has the key |
| MaterialConfig.Values | components/Hoodie/config/materialConfig.js:67 | `Object.values` keeps the entries' values in order |
| MaterialConfig.OptionPrefixIsId | components/Hoodie/config/materialConfig.js:2-27 | each option's texture prefix and id equal its key |
| MaterialConfig.SuffixesShared | components/Hoodie/config/materialConfig.js:30-34 | only main and lining have a suffix, and both are "1001" |
| MaterialConfig.MainAndLiningPathsEqual | components/Hoodie/config/materialConfig.js:30-57 | main and lining resolve to the same files for every fabric id |
| MaterialConfig.PricesBounded | components/Hoodie/config/materialConfig.js:2-27 | a fabric adds between 0 and 50, and an unknown id adds 0 |
| MaterialConfig.SumPricesAppend | components/Hoodie/config/materialConfig.js:66-71 | the fold adds piecewise over concatenated id lists |
| MaterialConfig.CostIsSumOfPrices | components/Hoodie/config/materialConfig.js:66-71 | one more selection adds exactly its fabric's price |
| MaterialConfig.CostBounds | components/Hoodie/config/materialConfig.js:66-71 | a sum of prices lies between 0 and 50 per id |
| MaterialConfig.CalculateMaterialCost | components/Hoodie/config/materialConfig.js:66-71 | the cost of any selection lies between 0 and 50 per selected slot |
| MaterialConfig.DefaultCostsNothing | components/Hoodie/config/materialConfig.js:60-71 | the default selections (cotton for both slots) cost 0 |
| TextureManager.MaxAnisotropy | components/Hoodie/managers/textureManager.js:11-13 | the renderer's maximum anisotropy, or 16 without a renderer |
| TextureManager.ContextAnisotropy | components/Hoodie/managers/textureManager.js:75-76 | the context's anisotropy, or 16 when it reports none |
| TextureManager.LoadTexture | components/Hoodie/managers/textureManager.js:25-36 | a loaded texture has its URL, clamped wrapping, no flip, repeat 1×1, linear filters and the given anisotropy |
| TextureManager.Lookup | components/Hoodie/managers/textureManager.js:82-91 | the primary key's entry when cached; otherwise the fallback key's, when one is given; otherwise nothing |
| TextureManager.PreloadKeysAreSix | components/Hoodie/managers/textureManager.js:16-23 | preloading writes exactly the keys {cotton,teddy,nylon}_{main,lining} |
| TextureManager.PreloadUnfolds | components/Hoodie/managers/textureManager.js:19-67 | the two nested loops over the fixed lists write the six entries in order |
| TextureManager.SixEntriesKeys | components/Hoodie/managers/textureManager.js:19-67 | the six writes add exactly the preload keys and keep every other entry |
| TextureManager.SixEntriesValues | components/Hoodie/managers/textureManager.js:19-67 | each preload key holds its fabric's trio for that slot |
| TextureManager.PreloadResult | components/Hoodie/managers/textureManager.js:9-68 | after preloading, the cache has the old keys plus the six, each new key holds its fabric's trio, and other entries are kept |
| TextureManager.PreloadBothSlots | components/Hoodie/managers/textureManager.js:20-66 | one fabric's inner loop writes its main and then its lining entry |
| TextureManager.PreloadTwiceSameKeys | components/Hoodie/managers/textureManager.js:9-68 | preloading again overwrites entries and adds no key |
| TextureManager.TextureManager.constructor | components/Hoodie/managers/textureManager.js:5-7 | the cache starts empty |
| TextureManager.TextureManager.PreloadMaterialTextures | components/Hoodie/managers/textureManager.js:9-68 | the new cache is the old one with every fabric × slot trio loaded at the renderer's anisotropy |
| TextureManager.TextureManager.PreloadWithWebGLCapabilities | components/Hoodie/managers/textureManager.js:70-80 | with a context, a full preload at the context's anisotropy; without one, the cache is unchanged |
| TextureManager.TextureManager.PreloadLists | components/Hoodie/managers/textureManager.js:19-67 | the outer loop leaves the cache that the fold over the fabric list defines |
| TextureManager.TextureManager.PreloadMaterial | components/Hoodie/managers/textureManager.js:20-66 | the inner loop stores the trio for each slot whose paths resolve, in order |
| TextureManager.TextureManager.GetTextures | components/Hoodie/managers/textureManager.js:82-91 | a result is a cached trio; nothing is found exactly when neither the key nor a given fallback key is cached |
| TextureManager.TextureManager.Dispose | components/Hoodie/managers/textureManager.js:93-100 | the cache is emptied and every later lookup finds nothing |
| MaterialApplicator.CloneOnce | components/Hoodie/managers/materialApplicator.js:112-130 | an uncustomised material is replaced by a fresh copy flagged cloned, with its colour snapshotted (and for fabric its map and finish); a customised one is kept; the visible finish is unchanged |
| MaterialApplicator.DressHardware | components/Hoodie/managers/materialApplicator.js:67-105 | the hardware finish for the string and piping tests; the snapshot is rewritten exactly when the colour is painted in place on the shared object |
| MaterialApplicator.ApplyZipperDetailsMaterial | components/Hoodie/managers/materialApplicator.js:47-108 | cloned once, the hardware finish for the name, opaque and visible, and the snapshot and sharing as the in-place write leaves them |
| MaterialApplicator.ApplyTexturedMaterial | components/Hoodie/managers/materialApplicator.js:163-193 | the trio's maps, the fabric finish, the displacement settings, and white or the tinted custom colour; white written in place also rewrites a shared snapshot |
| MaterialApplicator.ApplyFallbackMaterial | components/Hoodie/managers/materialApplicator.js:195-212 | the flat fallback finish; a custom colour ends the sharing, otherwise the material shows its snapshot object itself |
| MaterialApplicator.ClearMaps | components/Hoodie/managers/materialApplicator.js:132-144 | all four maps are cleared and nothing else changes |
| MaterialApplicator.DressFabric | components/Hoodie/managers/materialApplicator.js:153-158 | textured when the cache has a trio, else the fallback with the pre-pass snapshot colour |
| MaterialApplicator.ApplyFabricMaterial | components/Hoodie/managers/materialApplicator.js:110-161 | cloned once and given the fabric finish the cache lookup decides (the lining falling back to main), with the resulting snapshot and sharing |
| MaterialApplicator.ApplyToNode | components/Hoodie/managers/materialApplicator.js:23-35 | a named mesh with a material is dressed as its classification demands; any other node is untouched |
| MaterialApplicator.ApplyStep | components/Hoodie/managers/materialApplicator.js:23-35 | one visit dresses its node, leaves every other node and its material alone, and keeps each customised material owned by one node |
| MaterialApplicator.ApplyToNodes | components/Hoodie/managers/materialApplicator.js:19-36 | after the traversal every eligible node is cloned once and dressed from its pre-pass state; every other node is unchanged |
| MaterialApplicator.PassIsIdempotent | components/Hoodie/managers/materialApplicator.js:19-39 | a second pass with the same inputs decides the same finish, snapshot and sharing |
| MaterialApplicator.ApplyTwice | components/Hoodie/managers/materialApplicator.js:19-39 | two passes leave every eligible material as one pass does: maps do not stack and the clone is not repeated |
| MaterialApplicator.SnapshotOnlyColoursFallback | components/Hoodie/managers/materialApplicator.js:195-212 | the snapshot never affects maps or finish, and changes the colour exactly on an uncustomised fabric part the cache has no trio for |
| MaterialApplicator.StringBeatsPiping | components/Hoodie/managers/materialApplicator.js:49-101 | a string is dressed as a string even when it is also piping |
| MaterialApplicator.HardwareIsFlat | components/Hoodie/managers/materialApplicator.js:67-86 | hardware carries no map; its colour is the custom zipper colour when chosen, else one of the three defaults |
| MaterialApplicator.MainNeverFallsBack | components/Hoodie/managers/materialApplicator.js:146-151 | the main slot looks up only its own key |
| MaterialApplicator.LiningFallsBackToMain | components/Hoodie/managers/materialApplicator.js:146-151 | the lining uses its own key when cached, else the main key of the same selection |
| MaterialApplicator.PreloadedFabricIsTextured | components/Hoodie/managers/materialApplicator.js:146-158 | after preloading, a slot selecting a known fabric always gets that fabric's trio for that slot |
| MaterialApplicator.DefaultMainKey | components/Hoodie/managers/materialApplicator.js:19 | with the default selections the main slot reads "cotton_main" |
| MaterialApplicator.SnapshotOverwritten | components/Hoodie/managers/materialApplicator.js:195-212 | fallback, textured, then fallback: the body mesh first shows its authored colour and finally white |
| MaterialApplicator.MaterialApplicator.constructor | components/Hoodie/managers/materialApplicator.js:6-11 | the applicator keeps its texture manager and has no rendering context |
| MaterialApplicator.MaterialApplicator.SetRenderingContext | components/Hoodie/managers/materialApplicator.js:13-17 | the renderer, scene and camera are set as given |
| MaterialApplicator.MaterialApplicator.ForceRender | components/Hoodie/managers/materialApplicator.js:41-45 | one frame exactly when renderer, scene and camera are all set |
| MaterialApplicator.MaterialApplicator.ApplyMaterialsAndColors | components/Hoodie/managers/materialApplicator.js:19-39 | nothing without a model; otherwise every eligible node is dressed from the cache, others are untouched, and one render follows |
| CameraManager.HeldKeysAreArrows | components/Hoodie/managers/cameraManager.js:55-92 | only the four arrow keys ever enter the held set |
| CameraManager.ReleaseUndoesPress | components/Hoodie/managers/cameraManager.js:55-92 | releasing a newly pressed key restores the set; other keys leave it as it is |
| CameraManager.ArrowHeldIffNonEmpty | components/Hoodie/managers/cameraManager.js:148-160 | with only arrows held, the rotation renders on exactly the frames where it schedules a next one |
| CameraManager.NudgesKeepPolarRange | components/Hoodie/managers/cameraManager.js:104-146 | tilts never pass 0.1 from either pole and stay in [0.1, π−0.1]; turns change only the azimuth, tilts only the polar angle, and no nudge changes the radius |
| CameraManager.TiltStep | components/Hoodie/managers/cameraManager.js:126-146 | a tilt moves the polar angle by at most one step, and by exactly one away from the margins |
| CameraManager.PresetGeometry | components/Hoodie/managers/cameraManager.js:163-192 | exactly the four views are presets; front and back sit at distance d, the three-quarter views at squared distance 0.98·d²; back views mirror front views |
| CameraManager.ZoomStaysInBand | components/Hoodie/managers/cameraManager.js:194-219 | the zoom step, before `controls.update()`: an accepted zoom scales by a positive factor and lands within [10, 100]; a refused one leaves the camera where it was |
| CameraManager.InThenOutShrinks | components/Hoodie/managers/cameraManager.js:194-219 | the zoom steps alone, before `controls.update()`: zooming in then out ends at 0.99 of the start, not at the start |
| CameraManager.ZoomRefusedAtOrigin | components/Hoodie/managers/cameraManager.js:203-212 | a camera at the origin cannot zoom |
| CameraManager.UpdateScales | components/Hoodie/managers/cameraManager.js:24-25 | away from the target, `controls.update()` moves the camera along the ray from the target, to its distance clamped to [40, 100] |
| CameraManager.UpdateLandsInBand | components/Hoodie/managers/cameraManager.js:24-25 | after `controls.update()` the camera is between 40 and 100 from the target |
| CameraManager.UpdateKeepsBandedCamera | components/Hoodie/managers/cameraManager.js:24-25 | a camera already between 40 and 100 from the target is not moved by `controls.update()` |
| CameraManager.ZoomInAtMinimumStays | components/Hoodie/managers/cameraManager.js:194-219 | at distance 40 from the origin, zooming in passes the [10, 100] test, and `controls.update()` puts the camera back where it was |
| CameraManager.UpdateOnAxis | components/Hoodie/managers/cameraManager.js:24-25 | a camera on the z axis closer than 40 is pushed out to 40 on the same side |
| CameraManager.CameraManager.constructor | components/Hoodie/managers/cameraManager.js:5-44 | with a camera and a renderer, the controls exist, no key is held, no initial distance, the loop runs, and its first frame has clamped the camera's distance, rendered once and cleared the flag |
| CameraManager.CameraManager.OnControlsChange | components/Hoodie/managers/cameraManager.js:32-34 | a controls change asks for a render |
| CameraManager.CameraManager.AnimateFrame | components/Hoodie/managers/cameraManager.js:36-43 | a frame clamps the camera's distance to the controls' bounds, renders once exactly when the controls moved or a render was wanted, and clears the flag |
| CameraManager.CameraManager.HandleKeyDown | components/Hoodie/managers/cameraManager.js:55-81 | a new arrow with no rotation scheduled runs one rotation frame at once (nudge, distance clamp, render, next frame queued); an arrow already held or pressed while a frame is queued only joins the set; '+'/'=' zoom in and '-' zooms out to the clamped zoom outcome, moving the camera and nothing else; other keys, or no camera or controls, change nothing; the distance and flags are never written |
| CameraManager.CameraManager.HandleKeyUp | components/Hoodie/managers/cameraManager.js:83-92 | an arrow leaves the held set; other keys change nothing |
| CameraManager.CameraManager.SmoothRotate | components/Hoodie/managers/cameraManager.js:94-161 | one frame applies the held nudges in order, then the distance clamp and one render if any moved, and queues a next frame exactly while a key is held; it writes only the position, the render count and the frame id |
| CameraManager.CameraManager.NudgeHeld | components/Hoodie/managers/cameraManager.js:104-146 | left, right, up and down nudges in that order; it moves exactly when some arrow is held |
| CameraManager.CameraManager.SetCameraView | components/Hoodie/managers/cameraManager.js:163-192 | a preset moves the camera to its position at the initial distance (or 10), aims at the origin, and is then clamped to the controls' [40, 100]; otherwise nothing changes |
| CameraManager.CameraManager.HandleZoom | components/Hoodie/managers/cameraManager.js:194-219 | a zoom leaving [10, 100] is refused; an accepted one scales the position and is then clamped to the controls' [40, 100]; nothing changes without camera and controls |
| CameraManager.CameraManager.SetInitialDistance | components/Hoodie/managers/cameraManager.js:221-223 | the initial distance becomes the given value |
| CameraManager.CameraManager.UpdateCameraPosition | components/Hoodie/managers/cameraManager.js:225-236 | the box diagonal becomes the initial distance, and the camera sits on the z axis at that distance |
| CameraManager.CameraManager.Dispose | components/Hoodie/managers/cameraManager.js:238-255 | no frame stays queued and the controls are disposed when present |
| ModelLoader.PixelIsNoTile | components/Hoodie/managers/modelLoader.js:18-20 | the replacement pixel is itself no missing tile |
| ModelLoader.ModifyUrl | components/Hoodie/managers/modelLoader.js:16-23 | a missing tile becomes the pixel, every other URL is kept, and the result is never a missing tile |
| ModelLoader.ModifyUrlIdempotent | components/Hoodie/managers/modelLoader.js:16-23 | rewriting a rewritten URL changes nothing |
| ModelLoader.AbsentTilesReplaced | components/Hoodie/managers/modelLoader.js:18-20 | either tile anywhere in a URL is replaced |
| ModelLoader.PlainUrlsKept | components/Hoodie/managers/modelLoader.js:18-22 | a URL without an underscore is kept |
| ModelLoader.EnableShadows | components/Hoodie/managers/modelLoader.js:34-39 | every mesh casts and receives shadows; non-meshes keep their flags |
| ModelLoader.LoadModel | components/Hoodie/managers/modelLoader.js:28-51 | resolves exactly when the loader succeeds, with the same scene, shadowed; an error is rejected as it came |
| ModelLoader.CentringOffset | components/Hoodie/managers/modelLoader.js:57-60 | moving the box by the offset centres it on the origin and keeps its size |
| ModelLoader.PositionModel | components/Hoodie/managers/modelLoader.js:53-70 | the model is centred; the camera sits on the z axis at the diagonal, and the result carries model, box, size, centre and distance |
| ModelLoader.DisposeNode | components/Hoodie/managers/modelLoader.js:75-83 | a mesh's geometry (if any) and all its materials, one or an array, are disposed |
| ModelLoader.DisposeModel | components/Hoodie/managers/modelLoader.js:72-87 | nothing without a model; otherwise every mesh's geometry and materials are disposed, and only those |
| UseHoodieModel.InlineTextures | components/Hoodie/hooks/useHoodieModel.js:232-241 | the hook's inline lookup with the lining fallback finds exactly what `getTextures` finds with the applicator's keys |
| UseHoodieModel.HookPresetDistance | components/Hoodie/hooks/useHoodieModel.js:299-328 | after a load the presets use 0.7 of the diagonal, except for a zero diagonal, which is falsy and gives 10 |
| UseHoodieModel.HoodieViewer.constructor | components/Hoodie/hooks/useHoodieModel.js:55-62 | every ref starts empty |
| UseHoodieModel.HoodieViewer.Mount | components/Hoodie/hooks/useHoodieModel.js:358-456 | nothing without a mount element; otherwise the refs are set, every trio is preloaded at the renderer's anisotropy, the first frame clamps the camera's distance and renders, and the closure keeps this render's props |
| UseHoodieModel.HoodieViewer.Start | components/Hoodie/hooks/useHoodieModel.js:429-456 | the controls exist, the loop runs, and the first frame clamps the camera's distance and renders because the flag starts set |
| UseHoodieModel.HoodieViewer.OnControlsChange | components/Hoodie/hooks/useHoodieModel.js:444-446 | a controls change asks for a render |
| UseHoodieModel.HoodieViewer.AnimateFrame | components/Hoodie/hooks/useHoodieModel.js:448-455 | a frame clamps the camera's distance to the controls' bounds, renders exactly when the controls moved or a render was wanted, and clears the flag |
| UseHoodieModel.HoodieViewer.ApplyMaterialsAndColors | components/Hoodie/hooks/useHoodieModel.js:125-297 | nothing before the model loads; otherwise every eligible node is dressed from the hook's cache and others are untouched, with no render |
| UseHoodieModel.HoodieViewer.OnSelectionChange | components/Hoodie/hooks/useHoodieModel.js:541-548 | once loaded, one pass and one render (with renderer, scene and camera); before that, nothing |
| UseHoodieModel.HoodieViewer.OnSelectionPreload | components/Hoodie/hooks/useHoodieModel.js:551-565 | with a WebGL context, every trio is reloaded at its anisotropy; without one, the cache is unchanged |
| UseHoodieModel.HoodieViewer.OnModelLoaded | components/Hoodie/hooks/useHoodieModel.js:476-502 | the scene becomes the root, centred, with the camera at 0.7 of the diagonal, and is dressed with the props captured at mount; only the root, the distance, the camera position and the model's nodes and materials change |
| UseHoodieModel.HoodieViewer.Receive | components/Hoodie/hooks/useHoodieModel.js:477-498 | the root is set, every mesh casts and receives shadows, the model is placed, and no material changes |
| UseHoodieModel.HoodieViewer.Place | components/Hoodie/hooks/useHoodieModel.js:489-498 | the model is centred on the origin, and the camera sits on the z axis at 0.7 of the diagonal |
| UseHoodieModel.HoodieViewer.SetCameraView | components/Hoodie/hooks/useHoodieModel.js:299-328 | the manager's presets at the initial distance (or 10), then clamped to the controls' [40, 100]; an unknown view, or no camera or controls, changes nothing |
| UseHoodieModel.HoodieViewer.HandleZoom | components/Hoodie/hooks/useHoodieModel.js:330-355 | the manager's zoom: refused outside [10, 100], otherwise scaled and then clamped to the controls' [40, 100] |
| UseHoodieModel.HoodieViewer.LoadThenView | components/Hoodie/hooks/useHoodieModel.js:476-502 | after a load, a preset view puts the camera at that preset for 0.7 of the diagonal, aimed at the origin, then clamped to the controls' [40, 100] (a diagonal of 14 asks for the back view at (0, 0, -9.8) and ends at (0, 0, -40)); an unknown view leaves the loaded camera on the z axis |
| UseHoodieModel.HookBackViewClamped | components/Hoodie/hooks/useHoodieModel.js:434-435 | the back view for a diagonal of 14 is requested at (0, 0, -9.8), inside the controls' minimum, and `controls.update()` pushes it out to (0, 0, -40) |
| UseHoodieModel.HoodieViewer.Unmount | components/Hoodie/hooks/useHoodieModel.js:505-521 | the frame loop stops, and the model's geometry and materials are disposed as `disposeModel` does |

## Left out

- Colours: a custom colour is the parsed hex value, present or absent. CSS colour parsing and the library's `Color` arithmetic are not modelled. The blend `white.lerp(custom, 0.99)` is the parameter function `tint`.
- Numbers are mathematical reals, not doubles. `Math.PI` is its double value written as a real.
- Lengths are square roots. `UpdateCameraPosition` and `PositionModel` take the diagonal `size` with the requirement `size² = |box size|²`, and the zoom band is compared through squares.
- Trigonometry: the conversions to and from spherical coordinates are the parameters `toSpherical` and `fromSpherical` of the controller and the hook. The geometric lemmas assume `CameraManager.Conversions`: the radius is the exact length, converting back gives the same vector, and changing the radius scales the vector. This holds for real numbers, not for the library's floating-point values. `lookAt` is not modelled.
- `controls.update()` is modelled as its distance clamp to `minDistance` 40 and `maxDistance` 100 (`CameraManager.Updated`). Damping's leftover motion and the library's small clamp of the polar angle away from the poles are not modelled, and whether the controls report a move is the parameter `controlsMoved`.
- Rendering: a render is a counter. The renderer's set-up, the lights, `scene.add`, the DOM canvas, `preventDefault` and the window event listeners are not modelled.
- GPU disposal is a flag on geometries and materials. `TextureManager.TextureManager.Dispose` empties the cache; the `dispose()` call on each texture before that (components/Hoodie/managers/textureManager.js:94-98) is not modelled. Textures are values, so the hook's texture disposal in its cleanup and the renderer's `dispose` are not modelled.
- Loading: the loader's outcome, a scene or an error, is a parameter of `LoadModel`. Nothing models asynchrony, progress callbacks or the network. The hook's loader has no error callback, so a failed load does nothing and is not modelled.
- A texture entry exists as soon as `load` returns. It is not removed when the image fails, so the cache always holds the six entries after a preload.
- The WebGL context is modelled as the anisotropy it reports, or its absence. The code reads `MAX_TEXTURE_MAX_ANISOTROPY_EXT` from the context itself, where WebGL does not define it, so the reading is most likely empty and the anisotropy then falls back to 16. The free parameter covers this case and every other reading.
- `colorwayTextures` in the colour configuration is data that no core code reads. `partDisplayNames` and the options' display fields are UI text.
- `userData.originalEmissive` is not modelled, and neither is `originalMap`'s `clone()`: the clone keeps the same texture value.
- The traversal is the sequence of nodes `traverse` visits. Parent and child links and the model's own transform beyond its position are not modelled.
- MaterialApplicator.ApplyToNodes: requires every named mesh with a material to hold a single material. With an array, the source reads `userData` of an array and throws. The same holds for the class and hook methods that call it.
- MaterialApplicator.ApplyToNodes: requires each customised material to belong to one node and to carry its snapshot. Both hold for a freshly loaded model and are kept by every pass.
- UseHoodieModel.HoodieViewer.OnModelLoaded: does not restate that the meshes still cast and receive shadows after the pass. `Receive` states it for the load callback. The pass's frame covers whole nodes, so restating it would need a field-level frame for the pass.
- UseHoodieModel.HoodieViewer.Mount: the hook's mount effect runs once, so its closure keeps the first render's colours and selections. The model captures them in `mountColors` and `mountSelections`, and the load callback uses those.
- TextureManager.LoadTexture: gives the texture's settings as the `onLoad` callback leaves them. A texture whose image fails to load keeps the loader's default settings, and this is not modelled.
- MaterialApplicator.MaterialApplicator.ApplyMaterialsAndColors: takes the selections as an argument. The default argument (`defaultMaterialSelections`) appears only through `MaterialApplicator.DefaultMainKey`.
- MaterialConfig.GetTexturePaths: a fabric id is looked up in a Dafny map, which holds only the three fabrics. A JavaScript property read also finds inherited names such as "toString", for which the code would build paths from an undefined prefix. `MaterialConfig.CalculateMaterialCost` likewise adds 0 where the code would add `undefined` and give NaN. The `console.warn` messages are left out.
- CameraManager.CameraManager.constructor: requires a camera and a renderer, because building the controls reads the renderer's canvas and the camera's position and throws without them. A missing scene is accepted; the first frame then counts as a render, although the rendering library cannot render without a scene.
- CameraManager.CameraManager.HandleKeyDown: `controls.update()` after a zoom, after a rotation frame (cameraManager.js line 149) and after a preset view (line 191) may raise the controls' `change` event. Here that event is the separate entry point `OnControlsChange`, so `HandleKeyDown`, `SmoothRotate`, `SetCameraView` and `HandleZoom` leave `needsRender` as it was.
