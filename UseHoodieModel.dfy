/**
 * The viewer hook: the component's own copies of the classifier, the
 * material pass, the camera presets and zoom, and the URL modifier, wired to
 * the hook's refs (the model root, the camera and controls, the texture
 * cache, the initial distance) and to the frame loop's `needsRender` flag.
 *
 * The hook's classifier, material pass, preset views, zoom and URL modifier
 * are the same code as the managers'; the model states each once (in
 * `MeshUtils`, `MaterialApplicator`, `CameraManager` and `ModelLoader`) and
 * this module wires those definitions to the hook's state. What differs is
 * stated here: the lining fallback written inline, the 0.7 factor of the
 * initial distance, the missing render after the pass, and the effects.
 */
module UseHoodieModel {
  import opened Wrappers
  import opened ColorConfig
  import opened MeshUtils
  import opened MaterialConfig
  import TM = TextureManager
  import opened SceneGraph
  import opened MaterialApplicator
  import CameraManager
  import ModelLoader

  // ---------------------------------------------------------------------
  // The inline texture lookup
  // ---------------------------------------------------------------------

  /** The hook's lookup: the entry under `"{selected}_{slot}"`, and for the
      lining only, when that is missing, the entry under
      `"{selected}_main"`. It finds exactly what the texture manager's
      `getTextures` finds with the applicator's keys. */
  function InlineTextures(cache: map<string, TM.TextureSet>, sel: Selections, slot: MaterialPartId): (r: Option<TM.TextureSet>)
    ensures r == FabricTextures(cache, sel, slot)
  {
    var selected := SelectedMaterial(sel, slot);
    var key := selected + "_" + SlotName(slot);
    assert TM.Key(selected, SlotName(slot)) == key;
    assert TM.Key(selected, "main") == selected + "_main";
    assert |selected + "_main"| > 0;
    if key in cache then Some(cache[key])
    else if slot == Lining && selected + "_main" in cache then Some(cache[selected + "_main"])
    else None
  }

  /** The three-quarter-length factor of the hook's initial distance. */
  const initialDistanceFactor: real := 0.7

  /** What the material pass needs of the model it walks: `traverse` visits
      each node once, a customised material belongs to one node, a mesh the
      pass touches holds a single material, and every customised material
      has its snapshot. */
  ghost predicate Dressable(nodes: seq<Node>)
    reads Nodes(nodes), Materials(nodes)
  {
    DistinctNodes(nodes) && Owned(nodes) &&
    (forall n :: n in nodes && Eligible(n) ==> n.material.Single?) &&
    (forall n :: n in nodes ==> Snapshotted(n))
  }

  function RootFrame(root: Model?): set<object> {
    if root == null then {} else Nodes(root.nodes)
  }

  class HoodieViewer {
    /** `rootRef.current`: the loaded scene, once it has loaded. */
    var root: Model?
    /** Whether `sceneRef`, `cameraRef`, `rendererRef` and `controlsRef` are
        set. */
    var hasScene: bool
    var hasCamera: bool
    var hasRenderer: bool
    var hasControls: bool
    /** `materialTexturesRef.current`, filled by the same loops as the
        texture manager's cache. */
    const cache: TM.TextureManager
    /** `white.lerp(custom, 0.99)` of the rendering library. */
    const tint: int -> int
    /** The library's conversions between an offset and spherical
        coordinates, which `controls.update()` uses. */
    const toSpherical: Vec3 -> CameraManager.Spherical
    const fromSpherical: CameraManager.Spherical -> Vec3
    /** `initialDistanceRef.current`. */
    var initialDistance: Option<real>
    /** `camera.position` and `controls.target`. */
    var position: Vec3
    var target: Vec3
    /** The frame loop's flag and whether its frames are still requested. */
    var needsRender: bool
    var frameLoopActive: bool
    var renders: nat
    /** The colours and selections the mount effect's closure captured; the
        effect never re-runs, so the load callback uses these. */
    var mountColors: CustomColors
    var mountSelections: Selections

    ghost predicate Valid()
      reads this, RootFrame(root), if root == null then {} else Materials(root.nodes)
    {
      root != null ==> Dressable(root.nodes)
    }

    /** The first render: every ref is empty. */
    constructor (tint: int -> int, toSpherical: Vec3 -> CameraManager.Spherical,
                 fromSpherical: CameraManager.Spherical -> Vec3)
      ensures this.tint == tint && root == null && fresh(cache) && cache.textures == map[]
      ensures this.toSpherical == toSpherical && this.fromSpherical == fromSpherical
      ensures !hasScene && !hasCamera && !hasRenderer && !hasControls
      ensures initialDistance.None? && position == origin && target == origin
      ensures !needsRender && !frameLoopActive && renders == 0
      ensures Valid()
    {
      this.tint := tint;
      this.toSpherical, this.fromSpherical := toSpherical, fromSpherical;
      cache := new TM.TextureManager();
      root := null;
      hasScene, hasCamera, hasRenderer, hasControls := false, false, false, false;
      initialDistance, position, target := None, origin, origin;
      needsRender, frameLoopActive, renders := false, false, 0;
      mountColors, mountSelections := map[], defaultMaterialSelections;
    }

    /** The mount effect: without a mount element nothing happens.
        Otherwise scene, camera and renderer are created, every texture trio
        is preloaded with the renderer's anisotropy, the controls are
        created, and the frame loop starts with a first frame, which renders
        because `needsRender` starts set. The closure keeps the colours and
        selections of this render. */
    method Mount(hasMount: bool, rendererMaxAnisotropy: int, customColors: CustomColors, selections: Selections)
      modifies this, cache
      ensures !hasMount ==> unchanged(this) && unchanged(cache)
      ensures hasMount ==> hasScene && hasCamera && hasRenderer && hasControls
      ensures hasMount ==>
                cache.textures == TM.PreloadAll(old(cache.textures), TM.allMaterials, TM.allParts, rendererMaxAnisotropy)
      ensures hasMount ==> frameLoopActive && !needsRender && renders == old(renders) + 1
      ensures hasMount ==> mountColors == customColors && mountSelections == selections
      ensures hasMount ==> position == CameraManager.Updated(old(position), target, toSpherical, fromSpherical)
      ensures root == old(root) && target == old(target) && initialDistance == old(initialDistance)
    {
      if !hasMount {
        return;
      }
      cache.PreloadMaterialTextures(Some(rendererMaxAnisotropy));
      Start(customColors, selections);
    }

    /** The rest of the mount effect once the textures are requested: the
        refs are set, the closure keeps this render's colours and
        selections, and the first frame runs: `controls.update()` clamps the
        camera's distance, and the frame renders because `needsRender`
        starts set. */
    method Start(customColors: CustomColors, selections: Selections)
      modifies this`hasScene, this`hasCamera, this`hasRenderer, this`hasControls, this`position
      modifies this`mountColors, this`mountSelections, this`renders, this`needsRender, this`frameLoopActive
      ensures hasScene && hasCamera && hasRenderer && hasControls
      ensures frameLoopActive && !needsRender && renders == old(renders) + 1
      ensures position == CameraManager.Updated(old(position), target, toSpherical, fromSpherical)
      ensures mountColors == customColors && mountSelections == selections
    {
      hasScene, hasCamera, hasRenderer, hasControls := true, true, true, true;
      mountColors, mountSelections := customColors, selections;
      frameLoopActive, needsRender := true, true;
      AnimateFrame(false);
    }

    /** The controls' `change` listener. */
    method OnControlsChange()
      modifies this`needsRender
      ensures needsRender
    {
      needsRender := true;
    }

    /** One frame of `animate`: `controls.update()` clamps the camera's
        distance, and the frame renders when the controls report a move or a
        render is wanted, then clears the flag. */
    method AnimateFrame(controlsMoved: bool)
      modifies this`needsRender, this`renders, this`position
      ensures position == CameraManager.Updated(old(position), target, toSpherical, fromSpherical)
      ensures !needsRender
      ensures renders == old(renders) + if controlsMoved || old(needsRender) then 1 else 0
    {
      position := CameraManager.Updated(position, target, toSpherical, fromSpherical);
      if controlsMoved || needsRender {
        renders := renders + 1;
        needsRender := false;
      }
    }

    /** The hook's `applyMaterialsAndColors`: nothing before the model has
        loaded; otherwise the applicator's pass over the nodes with the
        hook's cache. Unlike the manager's, it does not render. */
    method ApplyMaterialsAndColors(custom: CustomColors, sel: Selections)
      requires Valid()
      modifies RootFrame(root), if root == null then {} else Materials(root.nodes)
      ensures Valid()
      ensures root != null ==>
                forall i :: 0 <= i < |root.nodes| && !Eligible(root.nodes[i]) ==> unchanged(root.nodes[i])
      ensures root != null ==>
                forall i :: 0 <= i < |root.nodes| && Eligible(root.nodes[i]) ==>
                  Passed(root.nodes[i], custom, sel, cache.textures, tint)
    {
      if root == null {
        return;
      }
      ApplyToNodes(root.nodes, custom, sel, cache.textures, tint);
    }

    /** The effect on a colour or selection change: once the model has
        loaded, one pass and one render (with a renderer, scene and camera);
        before that, nothing. */
    method OnSelectionChange(custom: CustomColors, sel: Selections)
      requires Valid()
      modifies this`renders, RootFrame(root), if root == null then {} else Materials(root.nodes)
      ensures Valid()
      ensures renders == old(renders) + if root != null && hasRenderer && hasScene && hasCamera then 1 else 0
      ensures root != null ==>
                forall i :: 0 <= i < |root.nodes| && Eligible(root.nodes[i]) ==>
                  Passed(root.nodes[i], custom, sel, cache.textures, tint)
    {
      if root != null {
        ApplyMaterialsAndColors(custom, sel);
        if hasRenderer && hasScene && hasCamera {
          renders := renders + 1;
        }
      }
    }

    /** The preload effect on a selection change: with a canvas and a WebGL
        context (`glMaxAnisotropy` is then the context's value), every trio
        is loaded again, as the texture manager's
        `preloadWithWebGLCapabilities` does; without one, nothing. */
    method OnSelectionPreload(glMaxAnisotropy: Option<int>)
      modifies cache
      ensures glMaxAnisotropy.None? ==> cache.textures == old(cache.textures)
      ensures glMaxAnisotropy.Some? ==>
                cache.textures == TM.PreloadAll(old(cache.textures), TM.allMaterials, TM.allParts,
                                                TM.ContextAnisotropy(glMaxAnisotropy.value))
    {
      cache.PreloadWithWebGLCapabilities(glMaxAnisotropy);
    }

    /** The load callback: the scene becomes the root, its meshes cast and
        receive shadows, it is centred on the origin, the camera is placed at
        0.7 of the box diagonal on the z axis, and the pass runs with the
        colours and selections captured at mount. `size` is the diagonal's
        length. */
    method OnModelLoaded(model: Model, box: Box, size: real)
      requires size >= 0.0 && size * size == Len2(BoxSize(box))
      requires Dressable(model.nodes)
      modifies this`root, this`initialDistance, this`position, model`position
      modifies Nodes(model.nodes), Materials(model.nodes)
      ensures root == model && Valid()
      ensures model.position == ModelLoader.CentringOffset(box)
      ensures initialDistance == Some(initialDistanceFactor * size)
      ensures position == Vec3(0.0, 0.0, initialDistanceFactor * size)
      ensures forall i :: 0 <= i < |model.nodes| && Eligible(model.nodes[i]) ==>
                Passed(model.nodes[i], mountColors, mountSelections, cache.textures, tint)
    {
      Receive(model, box, size);
      ApplyMaterialsAndColors(mountColors, mountSelections);
    }

    /** The load callback up to the pass: the root is set, the shadows
        enabled and the model placed; the materials are untouched. */
    method Receive(model: Model, box: Box, size: real)
      requires Dressable(model.nodes)
      modifies this`root, ModelLoader.NodeSet(model.nodes)`castShadow, ModelLoader.NodeSet(model.nodes)`receiveShadow
      modifies model`position, this`initialDistance, this`position
      ensures root == model && Valid()
      ensures ModelLoader.Shadowed(model.nodes)
      ensures model.position == ModelLoader.CentringOffset(box)
      ensures initialDistance == Some(initialDistanceFactor * size)
      ensures position == Vec3(0.0, 0.0, initialDistanceFactor * size)
      ensures forall i :: 0 <= i < |model.nodes| ==>
                model.nodes[i].material == old(model.nodes[i].material) &&
                SnapshotOf(model.nodes[i]) == old(SnapshotOf(model.nodes[i])) &&
                AliasedOf(model.nodes[i]) == old(AliasedOf(model.nodes[i]))
    {
      root := model;
      ModelLoader.EnableShadows(model.nodes);
      Place(model, box, size);
    }

    /** The model is centred on the origin and the camera put on the z axis
        at 0.7 of the diagonal. */
    method Place(model: Model, box: Box, size: real)
      modifies model`position, this`initialDistance, this`position
      ensures model.position == ModelLoader.CentringOffset(box)
      ensures initialDistance == Some(initialDistanceFactor * size)
      ensures position == Vec3(0.0, 0.0, initialDistanceFactor * size)
    {
      model.position := Scale(BoxCenter(box), -1.0);
      var distance := size * initialDistanceFactor;
      initialDistance := Some(distance);
      position := Vec3(0.0, 0.0, distance);
    }

    /** The hook's `setCameraView`: the manager's presets around the origin,
        with an unset distance standing for 10; an unknown view, or a
        missing camera or controls, changes nothing. */
    method SetCameraView(view: string)
      modifies this`position, this`target
      ensures !(hasCamera && hasControls) ||
              CameraManager.PresetPosition(view, CameraManager.DefaultDistance(initialDistance)).None? ==>
                position == old(position) && target == old(target)
      ensures hasCamera && hasControls &&
              CameraManager.PresetPosition(view, CameraManager.DefaultDistance(initialDistance)).Some? ==>
                position == CameraManager.Updated(
                              CameraManager.PresetPosition(view, CameraManager.DefaultDistance(initialDistance)).value,
                              origin, toSpherical, fromSpherical) &&
                target == origin
    {
      if !hasCamera || !hasControls {
        return;
      }
      var newPosition := CameraManager.PresetPosition(view, CameraManager.DefaultDistance(initialDistance));
      if newPosition.None? {
        return;
      }
      target := origin;
      position := CameraManager.Updated(newPosition.value, origin, toSpherical, fromSpherical);
    }

    /** The hook's `handleZoom`: the distance is scaled by 0.9 or 1.1 when
        the result stays within [10, 100], and `controls.update()` then
        clamps it to the controls' own bounds (40 to 100). */
    method HandleZoom(direction: string)
      modifies this`position
      ensures hasCamera && hasControls ==>
                position == CameraManager.ZoomOutcome(old(position), target, direction, toSpherical, fromSpherical)
      ensures !(hasCamera && hasControls) ==> position == old(position)
    {
      if !hasCamera || !hasControls {
        return;
      }
      var zoomFactor := CameraManager.ZoomFactor(direction);
      if !CameraManager.ZoomAccepted(position, zoomFactor) {
        return;
      }
      position := CameraManager.Updated(Scale(position, zoomFactor), target, toSpherical, fromSpherical);
    }

    /** A load followed by a preset view: the view is requested at 0.7 of
        the new model's diagonal, and `controls.update()` clamps it to the
        controls' bounds. A diagonal of 14 requests the back view at
        (0, 0, -9.8), which ends at (0, 0, -40). */
    method LoadThenView(model: Model, box: Box, size: real, view: string)
      requires hasCamera && hasControls
      requires size > 0.0 && size * size == Len2(BoxSize(box))
      requires Dressable(model.nodes)
      modifies this`root, this`initialDistance, this`position, this`target, model`position
      modifies Nodes(model.nodes), Materials(model.nodes)
      ensures root == model && Valid()
      ensures view in CameraManager.presetViews ==>
                position == CameraManager.Updated(CameraManager.PresetPosition(view, initialDistanceFactor * size).value,
                                                  origin, toSpherical, fromSpherical) &&
                target == origin
      ensures view !in CameraManager.presetViews ==>
                position == Vec3(0.0, 0.0, initialDistanceFactor * size) && target == old(target)
      ensures view == "back" && size == 14.0 && CameraManager.Conversions(toSpherical, fromSpherical) ==>
                position == Vec3(0.0, 0.0, -CameraManager.minControlsDistance)
    {
      OnModelLoaded(model, box, size);
      CameraManager.PresetGeometry(view, initialDistanceFactor * size);
      HookPresetDistance(view, size);
      SetCameraView(view);
      HookBackViewClamped(toSpherical, fromSpherical);
    }

    /** The mount effect's cleanup: the frame loop stops and the model's
        geometry and materials are disposed as `disposeModel` does. */
    method Unmount()
      modifies this`frameLoopActive
      modifies ModelLoader.NodeSet(ModelLoader.ModelNodes(root))`geometryDisposed
      modifies (if root == null then {} else ModelLoader.MeshMaterials(root.nodes))`disposed
      ensures !frameLoopActive
      ensures forall n :: n in ModelLoader.ModelNodes(root) ==>
        n.geometryDisposed == (old(n.geometryDisposed) || (n.isMesh && n.hasGeometry))
      ensures forall n :: n in ModelLoader.ModelNodes(root) && n.isMesh ==> ModelLoader.Disposed(ModelLoader.Held(n.material))
    {
      frameLoopActive := false;
      ModelLoader.DisposeModel(root);
    }
  }

  /** The hook's presets after a load: the initial distance is 0.7 of the
      diagonal, so each preset sits at that distance, unless the diagonal is
      0, which is falsy and gives the default 10. */
  /** For a diagonal of 14, the back view is requested at (0, 0, -9.8),
      inside the controls' minimum distance, and the update pushes it out to
      (0, 0, -40). */
  lemma {:induction false} HookBackViewClamped(toSpherical: Vec3 -> CameraManager.Spherical,
                                               fromSpherical: CameraManager.Spherical -> Vec3)
    ensures CameraManager.Conversions(toSpherical, fromSpherical) ==>
              CameraManager.Updated(CameraManager.PresetPosition("back", initialDistanceFactor * 14.0).value,
                                    origin, toSpherical, fromSpherical) ==
              Vec3(0.0, 0.0, -CameraManager.minControlsDistance)
  {
    assert CameraManager.PresetPosition("back", initialDistanceFactor * 14.0).value == Vec3(0.0, 0.0, -9.8);
    if CameraManager.Conversions(toSpherical, fromSpherical) {
      CameraManager.UpdateOnAxis(-9.8, toSpherical, fromSpherical);
    }
  }

  lemma {:induction false} HookPresetDistance(view: string, size: real)
    ensures size != 0.0 ==>
              CameraManager.PresetPosition(view, CameraManager.DefaultDistance(Some(initialDistanceFactor * size))) ==
              CameraManager.PresetPosition(view, initialDistanceFactor * size)
    ensures size == 0.0 ==>
              CameraManager.PresetPosition(view, CameraManager.DefaultDistance(Some(initialDistanceFactor * size))) ==
              CameraManager.PresetPosition(view, 10.0)
    ensures view == "back" && size != 0.0 ==>
              CameraManager.PresetPosition(view, CameraManager.DefaultDistance(Some(initialDistanceFactor * size))) ==
              Some(Vec3(0.0, 0.0, -initialDistanceFactor * size))
  {
    assert size != 0.0 ==> initialDistanceFactor * size != 0.0;
  }
}
