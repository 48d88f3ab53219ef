/**
 * The material applicator: one pass over a loaded model that gives every named
 * mesh the finish its part calls for. Hardware gets a flat colour and a fixed
 * finish; fabric gets the selected fabric's textures, or a flat fallback when
 * the cache has none. Each mesh's material is cloned once, on its first pass,
 * and a snapshot of its colour is kept in `userData.originalColor`.
 */
module MaterialApplicator {
  import opened Wrappers
  import opened Strings
  import opened ColorConfig
  import opened MeshUtils
  import opened MaterialConfig
  import TM = TextureManager
  import opened SceneGraph

  /** `customColors`: a part is customised when it has an entry (the source's
      colour strings are never empty); the value is the parsed colour. */
  type CustomColors = map<PartType, int>

  /** What a pass decides about a material: its colour, its four maps and its
      finish. */
  datatype Finish = Finish(
    colorHex: int,
    diffuseMap: Option<TM.Texture>, normalMap: Option<TM.Texture>,
    metalnessMap: Option<TM.Texture>, roughnessMap: Option<TM.Texture>,
    metalness: real, roughness: real)

  function FinishOf(m: Material): Finish
    reads m
  {
    Finish(m.color, m.diffuseMap, m.normalMap, m.metalnessMap, m.roughnessMap, m.metalness, m.roughness)
  }

  // ---- Hardware -------------------------------------------------------------

  /** Strings, straps and cords are dressed as fabric. */
  predicate IsString(name: string) {
    Contains(name, "Strap") || Contains(name, "String") || Contains(name, "string") ||
    Contains(name, "Cord") || Contains(name, "cord")
  }

  /** Piping and binding are dressed as plastic. */
  predicate IsPiping(name: string) {
    Contains(name, "Piping") || Contains(name, "Binding")
  }

  /** The finish `applyZipperDetailsMaterial` gives a hardware mesh, by its
      string and piping tests; the string test is made first. */
  function HardwareStyle(isString: bool, isPiping: bool, custom: CustomColors): Finish {
    Finish(if ZipperDetails in custom then custom[ZipperDetails]
           else if isString then 0x2c2c2c else if isPiping then 0x3a3a3a else 0x404040,
           None, None, None, None,
           if isString then 0.0 else if isPiping then 0.1 else 0.7,
           if isString then 0.9 else if isPiping then 0.6 else 0.2)
  }

  function HardwareFinish(name: string, custom: CustomColors): Finish {
    HardwareStyle(IsString(name), IsPiping(name), custom)
  }

  // ---- Fabric ---------------------------------------------------------------

  function SlotName(slot: MaterialPartId): string {
    if slot == Main then "main" else "lining"
  }

  /** `materialSelections[materialPartId]`, which JavaScript renders as
      "undefined" inside a template string when the slot has no selection. */
  function SelectedMaterial(sel: Selections, slot: MaterialPartId): string {
    match Get(sel, SlotName(slot))
    case Some(v) => v
    case None => "undefined"
  }

  function MaterialKey(sel: Selections, slot: MaterialPartId): string {
    TM.Key(SelectedMaterial(sel, slot), SlotName(slot))
  }

  /** Only the lining falls back, to the main fabric's textures. */
  function FallbackKey(sel: Selections, slot: MaterialPartId): Option<string> {
    if slot == Lining then Some(TM.Key(SelectedMaterial(sel, slot), "main")) else None
  }

  /** The textures a fabric mesh in `slot` receives from the cache, if any. */
  function FabricTextures(cache: map<string, TM.TextureSet>, sel: Selections, slot: MaterialPartId): Option<TM.TextureSet> {
    TM.Lookup(cache, MaterialKey(sel, slot), FallbackKey(sel, slot))
  }

  /** The finish `applyTexturedMaterial` gives; a custom colour is passed
      through the library's tint. */
  function TexturedFinish(t: TM.TextureSet, partType: PartType, custom: CustomColors, tint: int -> int): Finish {
    Finish(if partType in custom then tint(custom[partType]) else 0xffffff,
           Some(t.diffuse), Some(t.normal), None, Some(t.metallicRoughness), 0.0, 0.8)
  }

  /** The finish `applyFallbackMaterial` gives, the maps having been cleared;
      `snapshot` is the colour the material shows when it is not customised. */
  function FallbackFinish(partType: PartType, custom: CustomColors, snapshot: int): Finish {
    Finish(if partType in custom then custom[partType] else snapshot,
           None, None, None, None,
           if partType == ZipperDetails then 0.9 else 0.1,
           if partType == ZipperDetails then 0.2 else 0.8)
  }

  function FabricFinish(partType: PartType, slot: MaterialPartId, custom: CustomColors, sel: Selections,
                        cache: map<string, TM.TextureSet>, tint: int -> int, snapshot: int): Finish
  {
    match FabricTextures(cache, sel, slot)
    case Some(t) => TexturedFinish(t, partType, custom, tint)
    case None => FallbackFinish(partType, custom, snapshot)
  }

  /** The finish a pass gives a named mesh, by its classification. */
  function ExpectedFinish(name: string, custom: CustomColors, sel: Selections,
                          cache: map<string, TM.TextureSet>, tint: int -> int, snapshot: int): Finish
  {
    var info := Classify(name);
    match info.materialPartId
    case None => HardwareFinish(name, custom)
    case Some(slot) => FabricFinish(info.partType, slot, custom, sel, cache, tint, snapshot)
  }

  // ---- Material state -------------------------------------------------------

  /** The colour the fallback path restores: the snapshot once there is one. */
  function Snapshot(m: Material): int
    reads m
  {
    if m.isCloned && m.originalColor.Some? then m.originalColor.value else m.color
  }

  /** The material shows its snapshot object itself, so writing the colour
      in place writes the snapshot. */
  predicate Aliased(m: Material)
    reads m
  {
    m.isCloned && m.showsSnapshot
  }

  function MaterialOf(n: Node): set<object>
    reads n
  {
    if n.material.Single? then {n.material.m} else {}
  }

  predicate Customised(n: Node)
    reads n, MaterialOf(n)
  {
    n.material.Single? && n.material.m.isCloned
  }

  /** What a pass may write besides the node itself and what it allocates:
      a customised material. */
  function CloneFrame(n: Node): set<object>
    reads n, MaterialOf(n)
  {
    if Customised(n) then {n.material.m} else {}
  }

  /** After a pass the node's material is customised; it was cloned on this
      pass exactly when it had not been before. */
  twostate predicate ClonedOnce(n: Node)
    reads n, MaterialOf(n)
  {
    n.material.Single? && n.material.m.isCloned &&
    (old(Customised(n)) ==> n.material == old(n.material)) &&
    (!old(Customised(n)) ==> fresh(n.material.m))
  }

  /** Every customised material carries its colour snapshot: the clone step
      takes one and no later step removes it. */
  predicate Snapshotted(n: Node)
    reads n, MaterialOf(n)
  {
    Customised(n) ==> n.material.m.originalColor.Some?
  }

  /** The snapshot after a pass: `painted` over when the pass wrote the colour
      object the snapshot shares, else as it was. */
  predicate SnapshotAfter(m: Material, overwritten: bool, painted: int, before: int)
    reads m
  {
    m.originalColor == Some(if overwritten then painted else before)
  }

  // ---- Per-node routines ----------------------------------------------------

  /** The clone-once step that opens both per-node routines: an uncustomised
      material is replaced by a copy flagged `isCloned` that snapshots its
      colour (and, for fabric, its diffuse map and finish). */
  method CloneOnce(node: Node, fabric: bool)
    requires node.material.Single? && Snapshotted(node)
    modifies node
    ensures ClonedOnce(node) && node.material.m.originalColor.Some?
    ensures FinishOf(node.material.m) == old(FinishOf(node.material.m))
    ensures Snapshot(node.material.m) == old(Snapshot(node.material.m))
    ensures Aliased(node.material.m) == old(Aliased(node.material.m))
    ensures old(Customised(node)) ==> unchanged(node)
    ensures !old(Customised(node)) ==>
      var m := node.material.m;
      m.originalColor == Some(old(node.material.m.color)) && !m.needsUpdate &&
      (fabric ==> (old(node.material.m.diffuseMap).Some? ==> m.originalMap == old(node.material.m.diffuseMap)) &&
                  m.originalMetalness == Some(old(node.material.m.metalness)) &&
                  m.originalRoughness == Some(old(node.material.m.roughness)))
  {
    if !node.material.m.isCloned {
      var c := new Material.Copy(node.material.m);
      c.isCloned := true;
      if fabric && c.diffuseMap.Some? {
        c.originalMap := c.diffuseMap;
      }
      c.originalColor := Some(c.color);
      if fabric {
        c.originalMetalness, c.originalRoughness := Some(c.metalness), Some(c.roughness);
      }
      node.material := Single(c);
    }
  }

  /** The body of `applyZipperDetailsMaterial` after the clone step: strip the
      maps, paint the colour (a new colour object for a custom colour, else
      the default written into the current one), set the finish and make the
      material opaque. */
  method DressHardware(m: Material, isString: bool, isPiping: bool, custom: CustomColors)
    requires m.originalColor.Some?
    modifies m
    ensures FinishOf(m) == HardwareStyle(isString, isPiping, custom)
    ensures m.showsSnapshot == (old(m.showsSnapshot) && ZipperDetails !in custom)
    ensures m.originalColor == if m.showsSnapshot then Some(m.color) else old(m.originalColor)
    ensures m.originalColor.Some?
    ensures !m.transparent && m.opacity == 1.0 && m.visible
    ensures unchanged(m`isCloned, m`needsUpdate)
  {
    m.diffuseMap, m.normalMap, m.metalnessMap, m.roughnessMap := None, None, None, None;
    if ZipperDetails in custom {
      m.color, m.showsSnapshot := custom[ZipperDetails], false;
    } else {
      var hex := if isString then 0x2c2c2c else if isPiping then 0x3a3a3a else 0x404040;
      m.color := hex;
      if m.showsSnapshot {
        m.originalColor := Some(hex);
      }
    }
    if isString {
      m.metalness, m.roughness := 0.0, 0.9;
    } else if isPiping {
      m.metalness, m.roughness := 0.1, 0.6;
    } else {
      m.metalness, m.roughness := 0.7, 0.2;
    }
    m.transparent, m.opacity, m.visible := false, 1.0, true;
  }

  method ApplyZipperDetailsMaterial(node: Node, custom: CustomColors)
    requires node.material.Single? && Snapshotted(node)
    modifies node, CloneFrame(node)
    ensures ClonedOnce(node)
    ensures FinishOf(node.material.m) == HardwareFinish(node.name, custom)
    ensures var m := node.material.m;
      !m.transparent && m.opacity == 1.0 && m.visible && node.visible && m.needsUpdate
    ensures SnapshotAfter(node.material.m, old(Aliased(node.material.m)) && ZipperDetails !in custom,
                          HardwareFinish(node.name, custom).colorHex, old(Snapshot(node.material.m)))
    ensures Aliased(node.material.m) <==> old(Aliased(node.material.m)) && ZipperDetails !in custom
  {
    var isString := IsString(node.name);
    var isPiping := IsPiping(node.name);
    CloneOnce(node, false);
    DressHardware(node.material.m, isString, isPiping, custom);
    node.visible := true;
    node.material.m.needsUpdate := true;
  }

  /** `applyTexturedMaterial`: the cached textures, a fabric finish, and white
      (written into the current colour object) or the tinted custom colour. */
  method ApplyTexturedMaterial(m: Material, t: TM.TextureSet, partType: PartType, custom: CustomColors, tint: int -> int)
    modifies m
    ensures FinishOf(m) == TexturedFinish(t, partType, custom, tint)
    ensures m.displacementMap == Some(t.normal) && m.displacementScale == 0.05 && m.displacementBias == -0.025
    ensures m.normalScale == 2.5
    ensures m.showsSnapshot == (old(m.showsSnapshot) && partType !in custom)
    ensures m.originalColor == if m.showsSnapshot then Some(0xffffff) else old(m.originalColor)
    ensures unchanged(m`isCloned)
  {
    m.diffuseMap := Some(t.diffuse);
    m.normalMap := Some(t.normal);
    m.metalnessMap := None;
    m.roughnessMap := Some(t.metallicRoughness);
    m.displacementMap := Some(t.normal);
    m.displacementScale, m.displacementBias := 0.05, -0.025;
    m.metalness, m.roughness := 0.0, 0.8;
    m.normalScale := 2.5;
    if partType !in custom {
      m.color := 0xffffff;
      if m.showsSnapshot {
        m.originalColor := Some(0xffffff);
      }
    } else {
      m.color, m.showsSnapshot := tint(custom[partType]), false;
    }
  }

  /** `applyFallbackMaterial`: a flat finish, and the custom colour in a new
      colour object, else the snapshot object itself. */
  method ApplyFallbackMaterial(m: Material, partType: PartType, custom: CustomColors)
    modifies m
    ensures m.metalness == FallbackFinish(partType, custom, 0).metalness
    ensures m.roughness == FallbackFinish(partType, custom, 0).roughness
    ensures partType in custom ==> m.color == custom[partType] && !m.showsSnapshot
    ensures partType !in custom && m.originalColor.Some? ==> m.color == m.originalColor.value && m.showsSnapshot
    ensures partType !in custom && m.originalColor.None? ==> m.color == old(m.color) && m.showsSnapshot == old(m.showsSnapshot)
    ensures unchanged(m`diffuseMap, m`normalMap, m`metalnessMap, m`roughnessMap, m`isCloned, m`originalColor)
  {
    if partType == ZipperDetails {
      m.metalness, m.roughness := 0.9, 0.2;
    } else {
      m.metalness, m.roughness := 0.1, 0.8;
    }
    if partType in custom {
      m.color, m.showsSnapshot := custom[partType], false;
    } else if m.originalColor.Some? {
      m.color, m.showsSnapshot := m.originalColor.value, true;
    }
  }

  /** The map clearing in `applyFabricMaterial`, "to prevent stacking". */
  method ClearMaps(m: Material)
    modifies m
    ensures m.diffuseMap.None? && m.normalMap.None? && m.metalnessMap.None? && m.roughnessMap.None?
    ensures unchanged(m`color, m`metalness, m`roughness, m`isCloned, m`originalColor, m`showsSnapshot)
  {
    if m.diffuseMap.Some? {
      m.diffuseMap := None;
    }
    if m.normalMap.Some? {
      m.normalMap := None;
    }
    if m.metalnessMap.Some? {
      m.metalnessMap := None;
    }
    if m.roughnessMap.Some? {
      m.roughnessMap := None;
    }
  }

  /** The texture-or-fallback step of `applyFabricMaterial`, on a cloned
      material whose maps are cleared. */
  method DressFabric(m: Material, textures: Option<TM.TextureSet>, partType: PartType, custom: CustomColors, tint: int -> int)
    requires m.isCloned && m.originalColor.Some?
    requires m.diffuseMap.None? && m.normalMap.None? && m.metalnessMap.None? && m.roughnessMap.None?
    modifies m
    ensures FinishOf(m) == match textures
                           case Some(t) => TexturedFinish(t, partType, custom, tint)
                           case None => FallbackFinish(partType, custom, old(Snapshot(m)))
    ensures SnapshotAfter(m, old(m.showsSnapshot) && partType !in custom && textures.Some?, 0xffffff, old(Snapshot(m)))
    ensures m.showsSnapshot <==> partType !in custom && (textures.None? || old(m.showsSnapshot))
    ensures unchanged(m`isCloned)
  {
    if textures.Some? {
      ApplyTexturedMaterial(m, textures.value, partType, custom, tint);
    } else {
      ApplyFallbackMaterial(m, partType, custom);
    }
  }
  /** `applyFabricMaterial`: clone once, clear the maps, look the selected
      fabric's textures up (the lining falling back to the main fabric's) and
      apply them, or the flat fallback. */
  method ApplyFabricMaterial(node: Node, partType: PartType, slot: MaterialPartId, custom: CustomColors,
                             sel: Selections, cache: map<string, TM.TextureSet>, tint: int -> int)
    requires node.material.Single? && Snapshotted(node)
    modifies node, CloneFrame(node)
    ensures ClonedOnce(node)
    ensures FinishOf(node.material.m) ==
            FabricFinish(partType, slot, custom, sel, cache, tint, old(Snapshot(node.material.m)))
    ensures node.material.m.needsUpdate
    ensures SnapshotAfter(node.material.m, old(Aliased(node.material.m)) && partType !in custom &&
                                FabricTextures(cache, sel, slot).Some?,
                          0xffffff, old(Snapshot(node.material.m)))
    ensures Aliased(node.material.m) <==>
            partType !in custom && (FabricTextures(cache, sel, slot).None? || old(Aliased(node.material.m)))
  {
    CloneOnce(node, true);
    var m := node.material.m;
    ClearMaps(m);
    var selectedMaterial := SelectedMaterial(sel, slot);
    var materialKey := TM.Key(selectedMaterial, SlotName(slot));
    var fallbackKey := if slot == Lining then Some(TM.Key(selectedMaterial, "main")) else None;
    var materialTextures := TM.Lookup(cache, materialKey, fallbackKey);
    DressFabric(m, materialTextures, partType, custom, tint);
    m.needsUpdate := true;
  }

  // ---- The traversal --------------------------------------------------------

  /** The nodes `applyMaterialsAndColors` touches: named meshes with a material. */
  predicate Eligible(n: Node)
    reads n
  {
    n.isMesh && !n.material.NoMaterial? && n.name != ""
  }

  function Nodes(nodes: seq<Node>): set<object> {
    set n | n in nodes :: n as object
  }

  function Materials(nodes: seq<Node>): set<object>
    reads Nodes(nodes)
  {
    set n | n in nodes && n.material.Single? :: n.material.m as object
  }

  /** A customised material belongs to one node: no other node shows it. */
  ghost predicate Owned(nodes: seq<Node>)
    reads Nodes(nodes), Materials(nodes)
  {
    forall a, b :: a in nodes && b in nodes && a != b && Customised(a) && b.material.Single? ==>
      a.material.m != b.material.m
  }

  /** A pass writes the snapshot through the colour object it shares when it
      paints the current colour object instead of replacing it. */
  predicate Overwrites(name: string, custom: CustomColors, sel: Selections, cache: map<string, TM.TextureSet>) {
    var info := Classify(name);
    info.partType !in custom &&
    (info.materialPartId.None? || FabricTextures(cache, sel, info.materialPartId.value).Some?)
  }

  /** Whether the material shows its snapshot object after a pass. */
  predicate AliasedAfter(name: string, custom: CustomColors, sel: Selections, cache: map<string, TM.TextureSet>,
                         wasAliased: bool)
  {
    var info := Classify(name);
    info.partType !in custom &&
    match info.materialPartId
    case None => wasAliased
    case Some(slot) => FabricTextures(cache, sel, slot).None? || wasAliased
  }

  /** The snapshot colour and sharing of a node's material, where it has one. */
  function SnapshotOf(n: Node): int
    reads n, MaterialOf(n)
  {
    if n.material.Single? then Snapshot(n.material.m) else 0
  }

  predicate AliasedOf(n: Node)
    reads n, MaterialOf(n)
  {
    n.material.Single? && Aliased(n.material.m)
  }

  /** What a pass decides about a material: its finish, its snapshot colour
      and whether it shows the snapshot object. */
  datatype Outcome = Outcome(finish: Finish, snapshot: int, aliased: bool)

  function OutcomeOf(m: Material): Outcome
    reads m
  {
    Outcome(FinishOf(m), Snapshot(m), Aliased(m))
  }

  /** The outcome of a pass on an eligible node called `name` whose material,
      before the pass, had snapshot colour `snapshot` and did or did not show
      its snapshot object. */
  function PassOutcome(name: string, custom: CustomColors, sel: Selections, cache: map<string, TM.TextureSet>,
                       tint: int -> int, snapshot: int, wasAliased: bool): Outcome
  {
    var expected := ExpectedFinish(name, custom, sel, cache, tint, snapshot);
    Outcome(expected,
            if wasAliased && Overwrites(name, custom, sel, cache) then expected.colorHex else snapshot,
            AliasedAfter(name, custom, sel, cache, wasAliased))
  }

  /** A material a pass has dressed. */
  predicate Dressed(m: Material, name: string, custom: CustomColors, sel: Selections,
                    cache: map<string, TM.TextureSet>, tint: int -> int, snapshot: int, wasAliased: bool)
    reads m
  {
    m.isCloned && m.originalColor.Some? && m.needsUpdate &&
    OutcomeOf(m) == PassOutcome(name, custom, sel, cache, tint, snapshot, wasAliased)
  }

  /** A node the pass has visited: its material is cloned at most once and
      dressed according to how the pass found it. */
  twostate predicate Passed(n: Node, custom: CustomColors, sel: Selections,
                            cache: map<string, TM.TextureSet>, tint: int -> int)
    reads n, MaterialOf(n)
  {
    ClonedOnce(n) &&
    Dressed(n.material.m, n.name, custom, sel, cache, tint, old(SnapshotOf(n)), old(AliasedOf(n)))
  }

  /** The callback `applyMaterialsAndColors` hands to `traverse`. */
  method ApplyToNode(child: Node, custom: CustomColors, sel: Selections,
                     cache: map<string, TM.TextureSet>, tint: int -> int)
    requires Eligible(child) ==> child.material.Single?
    requires Snapshotted(child)
    modifies if Eligible(child) then {child} + CloneFrame(child) else {}
    ensures Eligible(child) ==>
              ClonedOnce(child) &&
              Dressed(child.material.m, child.name, custom, sel, cache, tint, old(SnapshotOf(child)), old(AliasedOf(child)))
    ensures !Eligible(child) ==> unchanged(child)
  {
    if child.isMesh && !child.material.NoMaterial? && child.name != "" {
      var info := GetMeshPartType(child.name);
      if info.partType == ZipperDetails {
        ApplyZipperDetailsMaterial(child, custom);
      } else if info.materialPartId.Some? {
        ApplyFabricMaterial(child, info.partType, info.materialPartId.value, custom, sel, cache, tint);
      }
    }
  }

  /** One visit of the traversal: it dresses the visited node, leaves every
      other node and its material alone, and keeps customised materials
      owned by one node. */
  method ApplyStep(nodes: seq<Node>, i: nat, custom: CustomColors, sel: Selections,
                   cache: map<string, TM.TextureSet>, tint: int -> int)
    requires i < |nodes| && DistinctNodes(nodes) && Owned(nodes)
    requires Eligible(nodes[i]) ==> nodes[i].material.Single?
    requires forall n :: n in nodes ==> Snapshotted(n)
    modifies if Eligible(nodes[i]) then {nodes[i]} + CloneFrame(nodes[i]) else {}
    ensures Owned(nodes)
    ensures forall n :: n in nodes ==> Snapshotted(n)
    ensures forall k :: 0 <= k < |nodes| && k != i ==>
              unchanged(nodes[k]) && (nodes[k].material.Single? ==> unchanged(nodes[k].material.m))
    ensures Eligible(nodes[i]) ==> Passed(nodes[i], custom, sel, cache, tint)
    ensures !Eligible(nodes[i]) ==> unchanged(nodes[i])
  {
    var child := nodes[i];
    ApplyToNode(child, custom, sel, cache, tint);
    forall a, b | a in nodes && b in nodes && a != b && Customised(a) && b.material.Single?
      ensures a.material.m != b.material.m
    {
      if a == child && old(Customised(child)) {
        assert old(Customised(a) && b.material.Single?);
      } else if b == child && old(Customised(child)) {
        assert old(Customised(b) && a.material.Single?);
      } else if a != child && b != child {
        assert old(Customised(a) && b.material.Single?);
      }
    }
  }

  /** The traversal in `applyMaterialsAndColors`, over the nodes `traverse`
      visits. A named mesh carrying an array of materials would make the source
      read `userData` of an array and throw, so the model requires none. */
  method ApplyToNodes(nodes: seq<Node>, custom: CustomColors, sel: Selections,
                      cache: map<string, TM.TextureSet>, tint: int -> int)
    requires DistinctNodes(nodes) && Owned(nodes)
    requires forall i :: 0 <= i < |nodes| && Eligible(nodes[i]) ==> nodes[i].material.Single?
    requires forall n :: n in nodes ==> Snapshotted(n)
    modifies Nodes(nodes), Materials(nodes)
    ensures Owned(nodes)
    ensures forall n :: n in nodes ==> Snapshotted(n)
    ensures forall i :: 0 <= i < |nodes| && !Eligible(nodes[i]) ==> unchanged(nodes[i])
    ensures forall i :: 0 <= i < |nodes| && Eligible(nodes[i]) ==> Passed(nodes[i], custom, sel, cache, tint)
  {
    var i := 0;
    while i < |nodes|
      invariant 0 <= i <= |nodes|
      invariant Owned(nodes)
      invariant forall n :: n in nodes ==> Snapshotted(n)
      invariant forall k :: i <= k < |nodes| ==>
                  unchanged(nodes[k]) && (nodes[k].material.Single? ==> unchanged(nodes[k].material.m))
      invariant forall k :: 0 <= k < i && !Eligible(nodes[k]) ==> unchanged(nodes[k])
      invariant forall k :: 0 <= k < i && Eligible(nodes[k]) ==> Passed(nodes[k], custom, sel, cache, tint)
    {
      assert nodes[i] in nodes;
      assert SnapshotOf(nodes[i]) == old(SnapshotOf(nodes[i])) && AliasedOf(nodes[i]) == old(AliasedOf(nodes[i]));
      assert Customised(nodes[i]) == old(Customised(nodes[i])) && nodes[i].material == old(nodes[i].material);
      ApplyStep(nodes, i, custom, sel, cache, tint);
      i := i + 1;
    }
  }

  // ---- Properties of a pass ------------------------------------------------

  /** A second pass with the same inputs and the same cache decides exactly
      what the first decided: finish, snapshot and sharing are a fixpoint. */
  lemma PassIsIdempotent(name: string, custom: CustomColors, sel: Selections, cache: map<string, TM.TextureSet>,
                         tint: int -> int, snapshot: int, wasAliased: bool)
    ensures var o := PassOutcome(name, custom, sel, cache, tint, snapshot, wasAliased);
            PassOutcome(name, custom, sel, cache, tint, o.snapshot, o.aliased) == o
  {
  }

  /** The snapshot matters to the colour of the flat fallback only: maps and
      finish never depend on it, and two snapshots give two colours only on
      an uncustomised fabric part the cache has no textures for. */
  lemma SnapshotOnlyColoursFallback(name: string, custom: CustomColors, sel: Selections,
                                    cache: map<string, TM.TextureSet>, tint: int -> int, s1: int, s2: int)
    ensures var f1 := ExpectedFinish(name, custom, sel, cache, tint, s1);
            var f2 := ExpectedFinish(name, custom, sel, cache, tint, s2);
            f1.diffuseMap == f2.diffuseMap && f1.normalMap == f2.normalMap &&
            f1.metalnessMap == f2.metalnessMap && f1.roughnessMap == f2.roughnessMap &&
            f1.metalness == f2.metalness && f1.roughness == f2.roughness
    ensures var info := Classify(name);
            ExpectedFinish(name, custom, sel, cache, tint, s1).colorHex !=
            ExpectedFinish(name, custom, sel, cache, tint, s2).colorHex
            <==>
            s1 != s2 && info.partType !in custom && info.materialPartId.Some? &&
            FabricTextures(cache, sel, info.materialPartId.value).None?
  {
  }

  /** The string test is made before the piping test. */
  lemma StringBeatsPiping(name: string, custom: CustomColors)
    requires IsString(name)
    ensures HardwareFinish(name, custom) == HardwareStyle(true, false, custom)
    ensures ZipperDetails !in custom ==> HardwareFinish(name, custom).colorHex == 0x2c2c2c
  {
  }

  /** Hardware never carries maps, and its colour is the custom zipper colour
      whenever one is chosen. */
  lemma HardwareIsFlat(name: string, custom: CustomColors)
    ensures var f := HardwareFinish(name, custom);
            f.diffuseMap.None? && f.normalMap.None? && f.metalnessMap.None? && f.roughnessMap.None?
    ensures ZipperDetails in custom ==> HardwareFinish(name, custom).colorHex == custom[ZipperDetails]
    ensures ZipperDetails !in custom ==>
              HardwareFinish(name, custom).colorHex in {0x2c2c2c, 0x3a3a3a, 0x404040}
  {
  }

  /** The main fabric looks its own key up and nothing else. */
  lemma MainNeverFallsBack(cache: map<string, TM.TextureSet>, sel: Selections)
    ensures FabricTextures(cache, sel, Main) ==
            if MaterialKey(sel, Main) in cache then Some(cache[MaterialKey(sel, Main)]) else None
  {
  }

  /** The lining uses its own key when cached, else the main key of the
      same selection. */
  lemma {:induction false} LiningFallsBackToMain(cache: map<string, TM.TextureSet>, sel: Selections)
    ensures MaterialKey(sel, Lining) in cache ==>
              FabricTextures(cache, sel, Lining) == Some(cache[MaterialKey(sel, Lining)])
    ensures MaterialKey(sel, Lining) !in cache ==>
              FabricTextures(cache, sel, Lining) ==
              if TM.Key(SelectedMaterial(sel, Lining), "main") in cache
              then Some(cache[TM.Key(SelectedMaterial(sel, Lining), "main")]) else None
  {
    var fallback := TM.Key(SelectedMaterial(sel, Lining), "main");
    assert |fallback| > 0 by {
      assert |fallback| == |SelectedMaterial(sel, Lining)| + 5;
    }
  }

  /** Once the cache is preloaded, a part whose slot selects a known fabric
      is always textured, with that fabric's trio for that slot. */
  lemma PreloadedFabricIsTextured(start: map<string, TM.TextureSet>, anisotropy: int, sel: Selections,
                                  slot: MaterialPartId)
    requires SelectedMaterial(sel, slot) in TM.allMaterials
    ensures SelectedMaterial(sel, slot) in materialOptions
    ensures FabricTextures(TM.PreloadAll(start, TM.allMaterials, TM.allParts, anisotropy), sel, slot) ==
            Some(TM.PreloadEntry(SelectedMaterial(sel, slot), SlotName(slot), anisotropy))
  {
    TM.PreloadResult(start, anisotropy);
    assert SlotName(slot) in TM.allParts;
  }

  /** Two passes with the same inputs and the same cache leave every
      eligible material as one pass does: maps are cleared before they are
      re-applied, so nothing stacks, and the clone is not repeated. */
  method ApplyTwice(nodes: seq<Node>, custom: CustomColors, sel: Selections,
                    cache: map<string, TM.TextureSet>, tint: int -> int)
    requires DistinctNodes(nodes) && Owned(nodes)
    requires forall i :: 0 <= i < |nodes| && Eligible(nodes[i]) ==> nodes[i].material.Single?
    requires forall n :: n in nodes ==> Snapshotted(n)
    modifies Nodes(nodes), Materials(nodes)
    ensures forall i :: 0 <= i < |nodes| && Eligible(nodes[i]) ==>
              nodes[i].material.Single? &&
              Dressed(nodes[i].material.m, nodes[i].name, custom, sel, cache, tint,
                      old(SnapshotOf(nodes[i])), old(AliasedOf(nodes[i])))
  {
    ApplyToNodes(nodes, custom, sel, cache, tint);
    ApplyToNodes(nodes, custom, sel, cache, tint);
    forall i | 0 <= i < |nodes| && Eligible(nodes[i])
      ensures nodes[i].material.Single? &&
              Dressed(nodes[i].material.m, nodes[i].name, custom, sel, cache, tint,
                      old(SnapshotOf(nodes[i])), old(AliasedOf(nodes[i])))
    {
      PassIsIdempotent(nodes[i].name, custom, sel, cache, tint, old(SnapshotOf(nodes[i])), old(AliasedOf(nodes[i])));
    }
  }

  /** With the default selections the main slot reads "cotton_main". */
  lemma DefaultMainKey()
    ensures MaterialKey(defaultMaterialSelections, Main) == "cotton_main"
  {
    assert Get(defaultMaterialSelections, "main") == Some("cotton");
  }

  /** The sharing the engine creates, on one body mesh whose authored colour
      is not white: a fallback pass makes the material show its snapshot
      object, a textured pass then paints that object white in place, and a
      later fallback pass restores white, not the authored colour. */
  method SnapshotOverwritten(name: string, authored: int, t: TM.TextureSet, tint: int -> int)
    returns (afterFirst: int, afterLast: int)
    requires name != "" && Classify(name) == PartInfo(Body, Some(Main))
    ensures afterFirst == authored
    ensures afterLast == 0xffffff
  {
    var m := new Material(authored, None, 0.5, 0.5);
    var node := new Node(true, name, true, Single(m));
    var sel := defaultMaterialSelections;
    var textured := map["cotton_main" := t];
    DefaultMainKey();
    ApplyToNode(node, map[], sel, map[], tint);
    afterFirst := node.material.m.color;
    assert Aliased(node.material.m);
    ApplyToNode(node, map[], sel, textured, tint);
    assert Snapshot(node.material.m) == 0xffffff;
    ApplyToNode(node, map[], sel, map[], tint);
    afterLast := node.material.m.color;
  }

  // ---- The applicator -------------------------------------------------------

  /** `MaterialApplicator`: the texture cache it reads, the tint the library's
      colour blend computes, whether a renderer, scene and camera are set,
      and how many frames it has rendered. */
  class MaterialApplicator {
    const textureManager: TM.TextureManager
    const tint: int -> int
    var hasRenderer: bool
    var hasScene: bool
    var hasCamera: bool
    var renders: nat

    constructor (textureManager: TM.TextureManager, tint: int -> int)
      ensures this.textureManager == textureManager && this.tint == tint
      ensures !hasRenderer && !hasScene && !hasCamera && renders == 0
    {
      this.textureManager, this.tint := textureManager, tint;
      hasRenderer, hasScene, hasCamera, renders := false, false, false, 0;
    }

    method SetRenderingContext(renderer: bool, scene: bool, camera: bool)
      modifies this
      ensures hasRenderer == renderer && hasScene == scene && hasCamera == camera
      ensures renders == old(renders)
    {
      hasRenderer, hasScene, hasCamera := renderer, scene, camera;
    }

    /** `forceRender`: one frame, only with a full rendering context. */
    method ForceRender()
      modifies this`renders
      ensures renders == old(renders) + if hasRenderer && hasScene && hasCamera then 1 else 0
    {
      if hasRenderer && hasScene && hasCamera {
        renders := renders + 1;
      }
    }

    /** `applyMaterialsAndColors`: nothing without a model; otherwise one
        pass over the nodes `traverse` visits, with the cached textures, and
        then one render. */
    method ApplyMaterialsAndColors(root: Model?, custom: CustomColors, sel: Selections)
      requires root != null ==>
                 DistinctNodes(root.nodes) && Owned(root.nodes) &&
                 (forall i :: 0 <= i < |root.nodes| && Eligible(root.nodes[i]) ==> root.nodes[i].material.Single?) &&
                 (forall n :: n in root.nodes ==> Snapshotted(n))
      modifies this`renders, if root != null then Nodes(root.nodes) + Materials(root.nodes) else {}
      ensures root == null ==> renders == old(renders)
      ensures root != null ==>
                renders == old(renders) + (if hasRenderer && hasScene && hasCamera then 1 else 0) &&
                Owned(root.nodes) && (forall n :: n in root.nodes ==> Snapshotted(n))
      ensures root != null ==>
                forall i :: 0 <= i < |root.nodes| && !Eligible(root.nodes[i]) ==> unchanged(root.nodes[i])
      ensures root != null ==>
                forall i :: 0 <= i < |root.nodes| && Eligible(root.nodes[i]) ==>
                  Passed(root.nodes[i], custom, sel, old(textureManager.textures), tint)
    {
      if root == null {
        return;
      }
      ApplyToNodes(root.nodes, custom, sel, textureManager.textures, tint);
      ForceRender();
    }
  }
}
