/**
 * The texture cache: every fabric's texture trio, per slot, keyed
 * "{material}_{part}".
 */
module TextureManager {
  import opened Wrappers
  import MaterialConfig

  datatype Wrapping = ClampToEdgeWrapping | RepeatWrapping
  datatype Filter = LinearFilter | LinearMipmapLinearFilter

  /** A texture as the loader hands it back: identified by its URL, with the
      sampler settings the load callback gives it. */
  datatype Texture = Texture(
    url: string, wrapS: Wrapping, wrapT: Wrapping, flipY: bool,
    repeatX: int, repeatY: int, magFilter: Filter, minFilter: Filter, anisotropy: int)

  datatype TextureSet = TextureSet(diffuse: Texture, normal: Texture, metallicRoughness: Texture)

  const allMaterials: seq<string> := ["cotton", "teddy", "nylon"]
  const allParts: seq<string> := ["main", "lining"]

  /** The cache key of a fabric and a slot. */
  function Key(materialId: string, partId: string): string {
    materialId + "_" + partId
  }

  /** The keys preloading writes: the fabric × slot cross product. */
  function PreloadKeys(): set<string> {
    set m, p | m in allMaterials && p in allParts :: Key(m, p)
  }

  /** The renderer's maximum anisotropy, or 16 without a renderer. */
  function MaxAnisotropy(rendererMaxAnisotropy: Option<int>): (a: int)
    ensures rendererMaxAnisotropy.Some? ==> a == rendererMaxAnisotropy.value
    ensures rendererMaxAnisotropy.None? ==> a == 16
  {
    match rendererMaxAnisotropy
    case Some(v) => v
    case None => 16
  }

  /** The anisotropy a WebGL context reports, or 16 when it reports none
      (`0`, or nothing without the extension, is falsy). */
  function ContextAnisotropy(glMaxAnisotropy: int): (a: int)
    ensures glMaxAnisotropy != 0 ==> a == glMaxAnisotropy
    ensures glMaxAnisotropy == 0 ==> a == 16
  {
    if glMaxAnisotropy == 0 then 16 else glMaxAnisotropy
  }

  /** The texture loaded from `url` once its load callback has configured it. */
  function LoadTexture(url: string, anisotropy: int): (t: Texture)
    ensures t.url == url && t.anisotropy == anisotropy
    ensures t.wrapS == ClampToEdgeWrapping && t.wrapT == ClampToEdgeWrapping
    ensures !t.flipY && t.repeatX == 1 && t.repeatY == 1
    ensures t.magFilter == LinearFilter && t.minFilter == LinearMipmapLinearFilter
  {
    Texture(url, ClampToEdgeWrapping, ClampToEdgeWrapping, false, 1, 1,
            LinearFilter, LinearMipmapLinearFilter, anisotropy)
  }

  function LoadSet(paths: MaterialConfig.TexturePaths, anisotropy: int): TextureSet {
    TextureSet(LoadTexture(paths.diffuse, anisotropy), LoadTexture(paths.normal, anisotropy),
               LoadTexture(paths.metallicRoughness, anisotropy))
  }

  /** The entry preloading stores under Key(m, p). */
  function PreloadEntry(m: string, p: string, anisotropy: int): TextureSet
    requires m in MaterialConfig.materialOptions && p in MaterialConfig.materialPartMapping
  {
    LoadSet(MaterialConfig.GetTexturePaths(m, p).value, anisotropy)
  }

  /** The inner `forEach`: store the trio of `materialId` for each slot in
      `parts` whose paths resolve, in order. */
  function PreloadParts(cache: map<string, TextureSet>, materialId: string, parts: seq<string>, anisotropy: int)
    : map<string, TextureSet>
  {
    if parts == [] then cache
    else
      var before := PreloadParts(cache, materialId, parts[..|parts| - 1], anisotropy);
      match MaterialConfig.GetTexturePaths(materialId, parts[|parts| - 1])
      case Some(paths) => before[Key(materialId, parts[|parts| - 1]) := LoadSet(paths, anisotropy)]
      case None => before
  }

  /** The outer `forEach` over the fabrics. */
  function PreloadAll(cache: map<string, TextureSet>, materials: seq<string>, parts: seq<string>, anisotropy: int)
    : map<string, TextureSet>
  {
    if materials == [] then cache
    else PreloadParts(PreloadAll(cache, materials[..|materials| - 1], parts, anisotropy),
                      materials[|materials| - 1], parts, anisotropy)
  }

  /** `getTextures` over a cache: the primary key's entry, else the fallback
      key's when one is given (an empty key is falsy), else nothing. */
  function Lookup(cache: map<string, TextureSet>, materialKey: string, fallbackKey: Option<string>): (r: Option<TextureSet>)
    ensures materialKey in cache ==> r == Some(cache[materialKey])
    ensures materialKey !in cache && fallbackKey.Some? && fallbackKey.value != "" ==>
              r == (if fallbackKey.value in cache then Some(cache[fallbackKey.value]) else None)
    ensures materialKey !in cache && (fallbackKey.None? || fallbackKey.value == "") ==> r.None?
  {
    if materialKey in cache then Some(cache[materialKey])
    else if fallbackKey.Some? && fallbackKey.value != "" && fallbackKey.value in cache then
      Some(cache[fallbackKey.value])
    else None
  }

  // Key(m, p) for each of the three preloaded fabrics and two parts, written
  // as the string literals "cotton_main" … "nylon_lining", so that the
  // preload lemmas below can compare keys with those literals.
  lemma KeyValues()
    ensures Key("cotton", "main") == "cotton_main" && Key("cotton", "lining") == "cotton_lining"
    ensures Key("teddy", "main") == "teddy_main" && Key("teddy", "lining") == "teddy_lining"
    ensures Key("nylon", "main") == "nylon_main" && Key("nylon", "lining") == "nylon_lining"
  {
  }

  // The six preloaded keys are {cotton,teddy,nylon}_{main,lining}.
  lemma PreloadKeysAreSix()
    ensures PreloadKeys() == {"cotton_main", "cotton_lining", "teddy_main", "teddy_lining", "nylon_main", "nylon_lining"}
  {
    KeyValues();
    forall k | k in PreloadKeys()
      ensures k in {"cotton_main", "cotton_lining", "teddy_main", "teddy_lining", "nylon_main", "nylon_lining"}
    {
      var m, p :| m in allMaterials && p in allParts && k == Key(m, p);
      assert m == "cotton" || m == "teddy" || m == "nylon";
      assert p == "main" || p == "lining";
    }
  }

  /** The cache after preloading, written out entry by entry. */
  function SixEntries(cache: map<string, TextureSet>, anisotropy: int): map<string, TextureSet> {
    cache["cotton_main" := PreloadEntry("cotton", "main", anisotropy)]
         ["cotton_lining" := PreloadEntry("cotton", "lining", anisotropy)]
         ["teddy_main" := PreloadEntry("teddy", "main", anisotropy)]
         ["teddy_lining" := PreloadEntry("teddy", "lining", anisotropy)]
         ["nylon_main" := PreloadEntry("nylon", "main", anisotropy)]
         ["nylon_lining" := PreloadEntry("nylon", "lining", anisotropy)]
  }

  lemma PreloadUnfolds(cache: map<string, TextureSet>, anisotropy: int)
    ensures PreloadAll(cache, allMaterials, allParts, anisotropy) == SixEntries(cache, anisotropy)
  {
    var r := PreloadAll(cache, allMaterials, allParts, anisotropy);
    assert allMaterials[..2][..1] == ["cotton"] && allMaterials[..2] == ["cotton", "teddy"];
    assert ["cotton"][..0] == [];
    assert PreloadAll(cache, [], allParts, anisotropy) == cache;
    var c1 := PreloadAll(cache, ["cotton"], allParts, anisotropy);
    assert c1 == PreloadParts(cache, "cotton", allParts, anisotropy);
    var c2 := PreloadAll(cache, ["cotton", "teddy"], allParts, anisotropy);
    assert c2 == PreloadParts(c1, "teddy", allParts, anisotropy);
    assert r == PreloadParts(c2, "nylon", allParts, anisotropy);
    PreloadBothSlots(cache, "cotton", anisotropy);
    PreloadBothSlots(c1, "teddy", anisotropy);
    PreloadBothSlots(c2, "nylon", anisotropy);
    KeyValues();
  }

  lemma SixEntriesKeys(cache: map<string, TextureSet>, anisotropy: int)
    ensures SixEntries(cache, anisotropy).Keys == cache.Keys + PreloadKeys()
    ensures forall k :: k in cache && k !in PreloadKeys() ==> SixEntries(cache, anisotropy)[k] == cache[k]
  {
    PreloadKeysAreSix();
  }

  lemma SixEntriesValues(cache: map<string, TextureSet>, anisotropy: int)
    ensures forall m, p :: m in allMaterials && p in allParts ==>
              Key(m, p) in SixEntries(cache, anisotropy) &&
              SixEntries(cache, anisotropy)[Key(m, p)] == PreloadEntry(m, p, anisotropy)
  {
    KeyValues();
    var r := SixEntries(cache, anisotropy);
    forall m, p | m in allMaterials && p in allParts
      ensures Key(m, p) in r && r[Key(m, p)] == PreloadEntry(m, p, anisotropy)
    {
      assert m == "cotton" || m == "teddy" || m == "nylon";
      assert p == "main" || p == "lining";
    }
  }

  // Preloading over the fixed lists writes exactly the six keys, each with
  // its fabric's trio, and leaves every other entry as it was.
  lemma PreloadResult(cache: map<string, TextureSet>, anisotropy: int)
    ensures PreloadAll(cache, allMaterials, allParts, anisotropy).Keys == cache.Keys + PreloadKeys()
    ensures forall m, p :: m in allMaterials && p in allParts ==>
              PreloadAll(cache, allMaterials, allParts, anisotropy)[Key(m, p)] == PreloadEntry(m, p, anisotropy)
    ensures forall k :: k in cache && k !in PreloadKeys() ==>
              PreloadAll(cache, allMaterials, allParts, anisotropy)[k] == cache[k]
  {
    PreloadUnfolds(cache, anisotropy);
    SixEntriesKeys(cache, anisotropy);
    SixEntriesValues(cache, anisotropy);
  }

  lemma PreloadBothSlots(cache: map<string, TextureSet>, m: string, anisotropy: int)
    requires m in MaterialConfig.materialOptions
    ensures PreloadParts(cache, m, allParts, anisotropy)
         == cache[Key(m, "main") := PreloadEntry(m, "main", anisotropy)][Key(m, "lining") := PreloadEntry(m, "lining", anisotropy)]
  {
    assert "main" in MaterialConfig.materialPartMapping && "lining" in MaterialConfig.materialPartMapping;
    assert ["main"][..0] == [];
    assert MaterialConfig.GetTexturePaths(m, "main").Some?;
    assert PreloadParts(cache, m, [], anisotropy) == cache;
    var withMain := PreloadParts(cache, m, ["main"], anisotropy);
    assert withMain == cache[Key(m, "main") := PreloadEntry(m, "main", anisotropy)];
    assert allParts[..1] == ["main"];
  }

  // Re-running preload leaves the same key set: entries are overwritten,
  // not duplicated.
  lemma PreloadTwiceSameKeys(cache: map<string, TextureSet>, a1: int, a2: int)
    ensures PreloadAll(PreloadAll(cache, allMaterials, allParts, a1), allMaterials, allParts, a2).Keys
         == PreloadAll(cache, allMaterials, allParts, a1).Keys
  {
    PreloadResult(cache, a1);
    PreloadResult(PreloadAll(cache, allMaterials, allParts, a1), a2);
  }

  class TextureManager {
    /** `materialTexturesRef.current`. */
    var textures: map<string, TextureSet>

    constructor ()
      ensures textures == map[]
    {
      textures := map[];
    }

    /** `preloadMaterialTextures`: loads every fabric × slot trio into the cache,
        overwriting entries already there. */
    method PreloadMaterialTextures(rendererMaxAnisotropy: Option<int>)
      modifies this
      ensures textures == PreloadAll(old(textures), allMaterials, allParts, MaxAnisotropy(rendererMaxAnisotropy))
    {
      var maxAnisotropy := MaxAnisotropy(rendererMaxAnisotropy);
      PreloadLists(allMaterials, allParts, maxAnisotropy);
    }

    /** `preloadWithWebGLCapabilities`: with a WebGL context
        (`glMaxAnisotropy` is then what it reports) every trio is loaded with
        that anisotropy; without one, nothing happens. */
    method PreloadWithWebGLCapabilities(glMaxAnisotropy: Option<int>)
      modifies this
      ensures glMaxAnisotropy.None? ==> textures == old(textures)
      ensures glMaxAnisotropy.Some? ==>
                textures == PreloadAll(old(textures), allMaterials, allParts, ContextAnisotropy(glMaxAnisotropy.value))
    {
      if glMaxAnisotropy.Some? {
        PreloadMaterialTextures(Some(ContextAnisotropy(glMaxAnisotropy.value)));
      }
    }

    /** The two nested `forEach` loops, over the fabric and slot lists. */
    method PreloadLists(materials: seq<string>, parts: seq<string>, maxAnisotropy: int)
      modifies this
      ensures textures == PreloadAll(old(textures), materials, parts, maxAnisotropy)
    {
      for i := 0 to |materials|
        invariant textures == PreloadAll(old(textures), materials[..i], parts, maxAnisotropy)
      {
        PreloadMaterial(materials[i], parts, maxAnisotropy);
        assert materials[..i + 1][..i] == materials[..i];
      }
      assert materials[..|materials|] == materials;
    }

    /** One pass of the outer `forEach`: the trio of `materialId` for each
        slot. */
    method PreloadMaterial(materialId: string, parts: seq<string>, maxAnisotropy: int)
      modifies this
      ensures textures == PreloadParts(old(textures), materialId, parts, maxAnisotropy)
    {
      for j := 0 to |parts|
        invariant textures == PreloadParts(old(textures), materialId, parts[..j], maxAnisotropy)
      {
        var partId := parts[j];
        var texturePaths := MaterialConfig.GetTexturePaths(materialId, partId);
        if texturePaths.Some? {
          textures := textures[Key(materialId, partId) := LoadSet(texturePaths.value, maxAnisotropy)];
        }
        assert parts[..j + 1][..j] == parts[..j];
      }
      assert parts[..|parts|] == parts;
    }

    /** `getTextures`: a read-only lookup with the lining's fallback key. */
    function GetTextures(materialKey: string, fallbackKey: Option<string>): (r: Option<TextureSet>)
      reads this
      ensures r.Some? ==> r.value in textures.Values
      ensures r.None? <==> materialKey !in textures &&
                           (fallbackKey.None? || fallbackKey.value == "" || fallbackKey.value !in textures)
    {
      Lookup(textures, materialKey, fallbackKey)
    }

    /** `dispose`: empties the cache; every later lookup finds nothing. */
    method Dispose()
      modifies this
      ensures textures == map[]
      ensures forall k, f :: GetTextures(k, f).None?
    {
      textures := map[];
    }
  }
}
