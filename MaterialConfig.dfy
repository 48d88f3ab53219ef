/**
 * The fabric options, their texture file naming and their prices.
 */
module MaterialConfig {
  import opened Wrappers

  datatype MaterialOption = MaterialOption(
    name: string, price: int, displayPrice: string, id: string,
    texturePrefix: string, previewImage: string)

  /** The `materialOptions` object, keyed by fabric id. */
  const materialOptions: map<string, MaterialOption> := map[
    "cotton" := MaterialOption("Cotton", 0, "+0kr", "cotton", "cotton", "/images/Cotton_Material.jpg"),
    "teddy" := MaterialOption("Teddy", 20, "+20kr", "teddy", "teddy", "/images/Teddy_Material.jpg"),
    "nylon" := MaterialOption("Nylon", 50, "+50kr", "nylon", "nylon", "/images/Nylon_Material.jpg")
  ]

  /** `materialPartMapping`: the file-name suffix of each slot's textures. */
  const materialPartMapping: map<string, string> := map["main" := "1001", "lining" := "1001"]

  const basePath: string := "/hoodie-materials/"

  datatype TexturePaths = TexturePaths(diffuse: string, normal: string, metallicRoughness: string)

  /** The path of one texture file: base, prefix, map kind, slot suffix. */
  function TextureFile(prefix: string, kind: string, suffix: string): string {
    basePath + prefix + "_" + kind + "_" + suffix + ".png"
  }

  /** `getTexturePaths`: `null` when the fabric or the slot is unknown (an
      empty suffix is falsy and counts as unknown). */
  function GetTexturePaths(materialId: string, partId: string): (r: Option<TexturePaths>)
    ensures r.None? <==> materialId !in materialOptions || partId !in materialPartMapping
    ensures r.Some? ==> r.value == TexturePaths(
      TextureFile(materialId, "diffuse", materialPartMapping[partId]),
      TextureFile(materialId, "normal", materialPartMapping[partId]),
      TextureFile(materialId, "metallicroughness", materialPartMapping[partId]))
  {
    if materialId !in materialOptions then None
    else
      var material := materialOptions[materialId];
      if partId !in materialPartMapping || materialPartMapping[partId] == "" then None
      else
        var suffix := materialPartMapping[partId];
        OptionPrefixIsId(materialId);
        Some(TexturePaths(
          TextureFile(material.texturePrefix, "diffuse", suffix),
          TextureFile(material.texturePrefix, "normal", suffix),
          TextureFile(material.texturePrefix, "metallicroughness", suffix)))
  }

  /** `defaultMaterialSelections`, and selections in general: the entries of
      a JavaScript object from slot to fabric id, in insertion order. */
  type Selections = seq<(string, string)>

  const defaultMaterialSelections: Selections := [("main", "cotton"), ("lining", "cotton")]

  /** `selections[key]`: the first entry with that key, if any. */
  function Get(selections: Selections, key: string): (r: Option<string>)
    ensures r.Some? ==> exists i :: 0 <= i < |selections| && selections[i] == (key, r.value)
    ensures r.None? <==> forall i :: 0 <= i < |selections| ==> selections[i].0 != key
  {
    if selections == [] then None
    else if selections[0].0 == key then Some(selections[0].1)
    else
      var r := Get(selections[1..], key);
      assert forall i :: 1 <= i < |selections| ==> selections[i] == selections[1..][i - 1];
      r
  }

  /** `Object.values(selections)`. */
  function Values(selections: Selections): (vs: seq<string>)
    ensures |vs| == |selections|
    ensures forall i :: 0 <= i < |selections| ==> vs[i] == selections[i].1
  {
    if selections == [] then [] else [selections[0].1] + Values(selections[1..])
  }

  /** The price a fabric id adds: its option's price, 0 when unknown. */
  function PriceOf(materialId: string): int {
    if materialId in materialOptions then materialOptions[materialId].price else 0
  }

  /** The `reduce` of `calculateMaterialCost`: a left fold adding prices. */
  function SumPrices(ids: seq<string>): int {
    if ids == [] then 0 else SumPrices(ids[..|ids| - 1]) + PriceOf(ids[|ids| - 1])
  }

  function CalculateMaterialCost(selections: Selections): (r: int)
    ensures 0 <= r <= 50 * |selections|
  {
    CostBounds(Values(selections));
    SumPrices(Values(selections))
  }

  // texturePrefix equals id, and both equal the option's key.
  lemma OptionPrefixIsId(materialId: string)
    requires materialId in materialOptions
    ensures materialOptions[materialId].texturePrefix == materialOptions[materialId].id == materialId
  {
  }

  // Every suffix is non-empty, and main and lining share suffix "1001".
  lemma SuffixesShared()
    ensures forall p :: p in materialPartMapping ==> materialPartMapping[p] == "1001"
    ensures materialPartMapping.Keys == {"main", "lining"}
  {
  }

  // Main and lining resolve to the same three files for every fabric.
  lemma MainAndLiningPathsEqual(materialId: string)
    ensures GetTexturePaths(materialId, "main") == GetTexturePaths(materialId, "lining")
  {
  }

  // Every option's price lies between 0 and 50.
  lemma PricesBounded(materialId: string)
    ensures 0 <= PriceOf(materialId) <= 50
  {
  }

  // The fold adds prices piecewise: the order of Object.values only
  // regroups the sum.
  lemma {:induction false} SumPricesAppend(a: seq<string>, b: seq<string>)
    ensures SumPrices(a + b) == SumPrices(a) + SumPrices(b)
    decreases |b|
  {
    if b == [] {
      assert a + b == a;
    } else {
      assert (a + b)[..|a + b| - 1] == a + b[..|b| - 1];
      SumPricesAppend(a, b[..|b| - 1]);
    }
  }

  // The cost is the sum of the selected options' prices: each selection adds
  // its price, unknown ids add 0.
  lemma {:induction false} CostIsSumOfPrices(selections: Selections, entry: (string, string))
    ensures CalculateMaterialCost(selections + [entry]) == CalculateMaterialCost(selections) + PriceOf(entry.1)
  {
    assert Values(selections + [entry]) == Values(selections) + [entry.1];
    assert (Values(selections) + [entry.1])[..|Values(selections)|] == Values(selections);
  }

  // Any cost is non-negative and at most 50 per selected slot.
  lemma {:induction false} CostBounds(ids: seq<string>)
    ensures 0 <= SumPrices(ids) <= 50 * |ids|
  {
    if ids != [] {
      CostBounds(ids[..|ids| - 1]);
      PricesBounded(ids[|ids| - 1]);
    }
  }

  // The default selections (cotton for both slots) cost nothing.
  lemma DefaultCostsNothing()
    ensures CalculateMaterialCost(defaultMaterialSelections) == 0
  {
    assert Values(defaultMaterialSelections) == ["cotton", "cotton"];
    assert ["cotton", "cotton"][..1] == ["cotton"];
    assert ["cotton"][..0] == [];
  }
}
