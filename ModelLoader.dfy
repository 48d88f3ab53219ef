/**
 * The model loader: the URL modifier installed on the loading manager, the
 * shadow pass over a freshly loaded scene, centring the model in front of
 * the camera, and releasing a model's geometry and materials.
 */
module ModelLoader {
  import opened Wrappers
  import opened Strings
  import opened SceneGraph
  import CameraManager

  // ---------------------------------------------------------------------
  // The URL modifier
  // ---------------------------------------------------------------------

  /** A 1x1 transparent PNG, served in place of texture tiles the asset
      references but that do not exist. */
  const transparentPixel: string := pixelHeader + pixelData1 + pixelData2 + pixelData3

  const pixelHeader: string := "data:image/png;base64,"
  const pixelData1: string := "iVBORw0KGgoAAAANSUhEUgAAAAEAAAAB"
  const pixelData2: string := "CAYAAAAfFcSJAAAADUlEQVR42mNkYPhf"
  const pixelData3: string := "DwAChwGA60e6kgAAAABJRU5ErkJggg=="

  /** The URL names one of the two tiles known to be absent. */
  predicate MissingTile(url: string) {
    Contains(url, "_999.png") || Contains(url, "_981.png")
  }

  // Base64 and the header have no underscore, piece by piece.
  lemma HeaderHasNoUnderscore() ensures '_' !in pixelHeader {}
  lemma Data1HasNoUnderscore() ensures '_' !in pixelData1 {}
  lemma Data2HasNoUnderscore() ensures '_' !in pixelData2 {}
  lemma Data3HasNoUnderscore() ensures '_' !in pixelData3 {}

  lemma PixelIsNoTile()
    ensures !MissingTile(transparentPixel)
  {
    assert "_999.png"[0] == '_' && "_981.png"[0] == '_';
    HeaderHasNoUnderscore();
    Data1HasNoUnderscore();
    Data2HasNoUnderscore();
    Data3HasNoUnderscore();
    assert '_' !in transparentPixel;
    AbsentFirstChar(transparentPixel, "_999.png");
    AbsentFirstChar(transparentPixel, "_981.png");
  }

  /** The loading manager's URL modifier: a missing tile becomes the
      transparent pixel and every other URL is kept. Whatever it returns is
      never a missing tile, so no request for one reaches the network. */
  function ModifyUrl(url: string): (r: string)
    ensures MissingTile(url) ==> r == transparentPixel
    ensures !MissingTile(url) ==> r == url
    ensures !MissingTile(r)
  {
    PixelIsNoTile();
    if MissingTile(url) then transparentPixel else url
  }

  /** Rewriting an already rewritten URL changes nothing. */
  lemma ModifyUrlIdempotent(url: string)
    ensures ModifyUrl(ModifyUrl(url)) == ModifyUrl(url)
  {
  }

  /** Either absent tile anywhere in a URL (the directory before it, a query
      after it) is replaced. */
  lemma {:induction false} AbsentTilesReplaced(before: string, after: string)
    ensures ModifyUrl(before + "_999.png" + after) == transparentPixel
    ensures ModifyUrl(before + "_981.png" + after) == transparentPixel
  {
    ContainsConcat(before, "_999.png", after);
    ContainsConcat(before, "_981.png", after);
  }

  /** A URL without an underscore cannot name a tile and is kept. */
  lemma {:induction false} PlainUrlsKept(url: string)
    requires '_' !in url
    ensures ModifyUrl(url) == url
  {
    AbsentFirstChar(url, "_999.png");
    AbsentFirstChar(url, "_981.png");
  }

  // ---------------------------------------------------------------------
  // Loading
  // ---------------------------------------------------------------------

  function NodeSet(nodes: seq<Node>): set<Node> {
    set n | n in nodes
  }

  /** Every mesh casts and receives shadows. */
  predicate Shadowed(nodes: seq<Node>)
    reads NodeSet(nodes)
  {
    forall n :: n in nodes && n.isMesh ==> n.castShadow && n.receiveShadow
  }

  /** The traversal in the loader's success callback. */
  method EnableShadows(nodes: seq<Node>)
    modifies NodeSet(nodes)`castShadow, NodeSet(nodes)`receiveShadow
    ensures Shadowed(nodes)
    ensures forall n :: n in nodes && !n.isMesh ==>
      n.castShadow == old(n.castShadow) && n.receiveShadow == old(n.receiveShadow)
  {
    for i := 0 to |nodes|
      invariant forall j :: 0 <= j < i && nodes[j].isMesh ==> nodes[j].castShadow && nodes[j].receiveShadow
      invariant forall n :: n in nodes && !n.isMesh ==>
        n.castShadow == old(n.castShadow) && n.receiveShadow == old(n.receiveShadow)
    {
      var child := nodes[i];
      if child.isMesh {
        child.castShadow := true;
        child.receiveShadow := true;
      }
    }
  }

  /** `loadModel`: the loader's outcome is passed in. A loaded scene is
      resolved with its shadows enabled; an error is rejected as it came and
      no scene is resolved. */
  method LoadModel<E>(outcome: Result<Model, E>) returns (r: Result<Model, E>)
    modifies if outcome.Ok? then NodeSet(outcome.value.nodes) else {}
    ensures r.Ok? <==> outcome.Ok?
    ensures outcome.Err? ==> r == outcome
    ensures outcome.Ok? ==> r.value == outcome.value && Shadowed(r.value.nodes)
    ensures outcome.Ok? ==> forall n :: n in outcome.value.nodes && !n.isMesh ==>
      n.castShadow == old(n.castShadow) && n.receiveShadow == old(n.receiveShadow)
  {
    match outcome
    case Err(_) =>
      r := outcome;
    case Ok(scene) =>
      EnableShadows(scene.nodes);
      r := Ok(scene);
  }

  // ---------------------------------------------------------------------
  // Positioning
  // ---------------------------------------------------------------------

  /** What `positionModel` returns: the model, its box, and the camera's
      size, centre and initial distance. */
  datatype Placement = Placement(model: Model, boundingBox: Box, size: real, center: Vec3, initialDistance: real)

  function Translate(b: Box, v: Vec3): Box {
    Box(Add(b.min, v), Add(b.max, v))
  }

  /** The offset `positionModel` gives the model. */
  function CentringOffset(b: Box): (v: Vec3)
    ensures BoxCenter(Translate(b, v)) == origin
    ensures BoxSize(Translate(b, v)) == BoxSize(b)
  {
    Scale(BoxCenter(b), -1.0)
  }

  /** `positionModel`: the model is moved so its box is centred on the
      origin, and the camera is placed on the positive z axis at the box's
      diagonal. `size` is the diagonal's length. */
  method PositionModel(model: Model, box: Box, size: real, camera: CameraManager.CameraManager)
      returns (p: Placement)
    requires size >= 0.0 && size * size == Len2(BoxSize(box))
    modifies model`position, camera`initialDistance, camera`position
    ensures model.position == CentringOffset(box)
    ensures p == Placement(model, box, size, BoxCenter(box), size)
    ensures camera.initialDistance == Some(size) && camera.position == Vec3(0.0, 0.0, size)
  {
    model.position := Scale(BoxCenter(box), -1.0);
    var s, center, distance := camera.UpdateCameraPosition(box, size);
    p := Placement(model, box, s, center, distance);
  }

  // ---------------------------------------------------------------------
  // Disposal
  // ---------------------------------------------------------------------

  /** The materials `child.material` holds. */
  function Held(r: MaterialRef): seq<Material> {
    match r
    case NoMaterial => []
    case Single(m) => [m]
    case Many(ms) => ms
  }

  /** The materials of the meshes among `nodes`. */
  ghost function MeshMaterials(nodes: seq<Node>): set<Material>
    reads NodeSet(nodes)
  {
    set n, m | n in nodes && n.isMesh && m in Held(n.material) :: m
  }

  function ModelNodes(model: Model?): seq<Node>
    reads model
  {
    if model == null then [] else model.nodes
  }

  predicate Disposed(ms: seq<Material>)
    reads set m | m in ms
  {
    forall m :: m in ms ==> m.disposed
  }

  /** Disposes one node: its geometry where it has one, and every material
      it holds when it is a mesh. */
  method DisposeNode(child: Node)
    modifies child`geometryDisposed, (set m | child.isMesh && m in Held(child.material))`disposed
    ensures child.geometryDisposed == (old(child.geometryDisposed) || (child.isMesh && child.hasGeometry))
    ensures child.isMesh ==> Disposed(Held(child.material))
  {
    if child.isMesh {
      var ms := Held(child.material);
      for i := 0 to |ms|
        invariant forall j :: 0 <= j < i ==> ms[j].disposed
        invariant child.geometryDisposed == old(child.geometryDisposed)
      {
        ms[i].disposed := true;
      }
      if child.hasGeometry {
        child.geometryDisposed := true;
      }
    }
  }

  /** `disposeModel`: nothing for a model that never loaded; otherwise every
      mesh's geometry (where it has one) and every material it holds, one or
      an array of them, are disposed. Nothing else is. */
  method DisposeModel(model: Model?)
    modifies NodeSet(ModelNodes(model))`geometryDisposed
    modifies (if model == null then {} else MeshMaterials(model.nodes))`disposed
    ensures forall n :: n in ModelNodes(model) ==>
      n.geometryDisposed == (old(n.geometryDisposed) || (n.isMesh && n.hasGeometry))
    ensures forall n :: n in ModelNodes(model) && n.isMesh ==> Disposed(Held(n.material))
  {
    if model == null {
      return;
    }
    var nodes := model.nodes;
    for i := 0 to |nodes|
      invariant forall n :: n in nodes ==>
        n.geometryDisposed == (old(n.geometryDisposed) || (n.isMesh && n.hasGeometry && n in nodes[..i]))
      invariant forall j :: 0 <= j < i && nodes[j].isMesh ==> Disposed(Held(nodes[j].material))
    {
      DisposeNode(nodes[i]);
    }
  }
}
