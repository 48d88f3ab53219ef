/**
 * The parts of the rendering library's object graph the engine touches:
 * materials with their `userData`, scene nodes and the loaded model. A
 * traversal of the model is the sequence of nodes it visits.
 */
module SceneGraph {
  import opened Wrappers
  import opened TextureManager

  datatype Vec3 = Vec3(x: real, y: real, z: real)

  const origin: Vec3 := Vec3(0.0, 0.0, 0.0)

  function Add(a: Vec3, b: Vec3): Vec3 {
    Vec3(a.x + b.x, a.y + b.y, a.z + b.z)
  }

  function Sub(a: Vec3, b: Vec3): Vec3 {
    Vec3(a.x - b.x, a.y - b.y, a.z - b.z)
  }

  function Scale(a: Vec3, k: real): Vec3 {
    Vec3(a.x * k, a.y * k, a.z * k)
  }

  /** The squared length; lengths themselves are square roots, which the
      model compares through their squares. */
  function Len2(a: Vec3): real {
    a.x * a.x + a.y * a.y + a.z * a.z
  }

  /** An axis-aligned bounding box. */
  datatype Box = Box(min: Vec3, max: Vec3)

  function BoxSize(b: Box): Vec3 {
    Sub(b.max, b.min)
  }

  function BoxCenter(b: Box): Vec3 {
    Scale(Add(b.min, b.max), 0.5)
  }

  /**
   * A standard material. `diffuseMap` is the library's `map` property.
   *
   * The colour is a reference in the library, and the engine makes two
   * fields share one colour object when it restores the snapshot
   * (`color = userData.originalColor`). The model keeps the hex of the
   * colour the material shows in `color`, the hex of the snapshot in
   * `originalColor`, and `showsSnapshot` for "both fields hold the same
   * object": writing the colour in place (`color.setHex`) then writes the
   * snapshot too, while assigning a new colour object ends the sharing.
   */
  class Material {
    var color: int
    var diffuseMap: Option<Texture>
    var normalMap: Option<Texture>
    var metalnessMap: Option<Texture>
    var roughnessMap: Option<Texture>
    var displacementMap: Option<Texture>
    var displacementScale: real
    var displacementBias: real
    var normalScale: real
    var metalness: real
    var roughness: real
    var transparent: bool
    var opacity: real
    var visible: bool
    var needsUpdate: bool
    var disposed: bool
    // userData
    var isCloned: bool
    var originalColor: Option<int>
    var originalMap: Option<Texture>
    var originalMetalness: Option<real>
    var originalRoughness: Option<real>
    var showsSnapshot: bool

    /** A material as authored in the asset: not yet customised. */
    constructor (hex: int, diffuseMap: Option<Texture>, metalness: real, roughness: real)
      ensures color == hex
      ensures this.diffuseMap == diffuseMap && this.metalness == metalness && this.roughness == roughness
      ensures normalMap.None? && metalnessMap.None? && roughnessMap.None? && displacementMap.None?
      ensures !isCloned && originalColor.None? && !showsSnapshot && !disposed
    {
      color := hex;
      this.diffuseMap := diffuseMap;
      normalMap, metalnessMap, roughnessMap, displacementMap := None, None, None, None;
      displacementScale, displacementBias, normalScale := 1.0, 0.0, 1.0;
      this.metalness, this.roughness := metalness, roughness;
      transparent, opacity, visible, needsUpdate, disposed := false, 1.0, true, false, false;
      isCloned, originalColor, showsSnapshot := false, None, false;
      originalMap, originalMetalness, originalRoughness := None, None, None;
    }

    /** `material.clone()`: a new material with its own colour object and a
        copy of `userData`. */
    constructor Copy(src: Material)
      ensures color == src.color
      ensures diffuseMap == src.diffuseMap && normalMap == src.normalMap && metalnessMap == src.metalnessMap
      ensures roughnessMap == src.roughnessMap && displacementMap == src.displacementMap
      ensures displacementScale == src.displacementScale && displacementBias == src.displacementBias
      ensures normalScale == src.normalScale
      ensures metalness == src.metalness && roughness == src.roughness
      ensures transparent == src.transparent && opacity == src.opacity && visible == src.visible
      ensures !disposed && !needsUpdate
      ensures isCloned == src.isCloned && originalColor == src.originalColor && !showsSnapshot
      ensures originalMap == src.originalMap
      ensures originalMetalness == src.originalMetalness && originalRoughness == src.originalRoughness
    {
      color := src.color;
      diffuseMap, normalMap, metalnessMap := src.diffuseMap, src.normalMap, src.metalnessMap;
      roughnessMap, displacementMap := src.roughnessMap, src.displacementMap;
      displacementScale, displacementBias, normalScale := src.displacementScale, src.displacementBias, src.normalScale;
      metalness, roughness := src.metalness, src.roughness;
      transparent, opacity, visible, needsUpdate, disposed := src.transparent, src.opacity, src.visible, false, false;
      isCloned, originalColor, showsSnapshot := src.isCloned, src.originalColor, false;
      originalMap, originalMetalness, originalRoughness := src.originalMap, src.originalMetalness, src.originalRoughness;
    }
  }

  /** `child.material`: absent, one material, or an array of materials. */
  datatype MaterialRef = NoMaterial | Single(m: Material) | Many(ms: seq<Material>)

  class Node {
    const isMesh: bool
    const name: string
    const hasGeometry: bool
    var material: MaterialRef
    var castShadow: bool
    var receiveShadow: bool
    var visible: bool
    var geometryDisposed: bool

    constructor (isMesh: bool, name: string, hasGeometry: bool, material: MaterialRef)
      ensures this.isMesh == isMesh && this.name == name && this.hasGeometry == hasGeometry
      ensures this.material == material
      ensures !castShadow && !receiveShadow && visible && !geometryDisposed
    {
      this.isMesh, this.name, this.hasGeometry, this.material := isMesh, name, hasGeometry, material;
      castShadow, receiveShadow, visible, geometryDisposed := false, false, true, false;
    }
  }

  /** A loaded model: its root's position and the nodes `traverse` visits,
      root first. */
  class Model {
    var position: Vec3
    const nodes: seq<Node>

    constructor (nodes: seq<Node>)
      ensures this.nodes == nodes && position == Vec3(0.0, 0.0, 0.0)
    {
      this.nodes := nodes;
      position := Vec3(0.0, 0.0, 0.0);
    }
  }

  /** `traverse` visits every node once. */
  ghost predicate DistinctNodes(nodes: seq<Node>) {
    forall i, j :: 0 <= i < j < |nodes| ==> nodes[i] != nodes[j]
  }
}
