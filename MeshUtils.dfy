/**
 * The part classifier: from a mesh name to the customisable part it belongs
 * to and the material slot whose fabric it shows.
 */
module MeshUtils {
  import opened Wrappers
  import opened Strings
  import opened ColorConfig

  /** A fabric material slot; the source spells them "main" and "lining". */
  datatype MaterialPartId = Main | Lining

  /** The classifier's result; `materialPartId` is `None` for JavaScript's `null`. */
  datatype PartInfo = PartInfo(partType: PartType, materialPartId: Option<MaterialPartId>)

  /** The slot a part's fabric comes from: none for hardware, the lining for the
      hood interior, the main fabric otherwise. */
  function SlotOf(p: PartType): (s: Option<MaterialPartId>)
    ensures s.None? <==> p == ZipperDetails
    ensures s == Some(Lining) <==> p == HoodInterior
  {
    if p == ZipperDetails then None
    else if p == HoodInterior then Some(Lining)
    else Some(Main)
  }

  /** The first table entry whose name list includes `name`. */
  function TableLookup(table: seq<(PartType, seq<string>)>, name: string): (r: Option<PartType>)
    ensures r.Some? ==> exists i :: 0 <= i < |table| && table[i].0 == r.value && name in table[i].1
  {
    if table == [] then None
    else if name in table[0].1 then Some(table[0].0)
    else
      var r := TableLookup(table[1..], name);
      assert r.Some? ==> exists i :: 1 <= i < |table| && table[i].0 == r.value && name in table[i].1 by {
        if r.Some? {
          var i :| 0 <= i < |table[1..]| && table[1..][i].0 == r.value && name in table[1..][i].1;
          assert table[i + 1] == table[1..][i];
        }
      }
      r
  }

  /** Hardware keywords, tested case-sensitively in this order by the fallback. */
  const hardwareKeywords: seq<string> :=
    ["Zipper", "Stopper", "Trim", "Piping", "Strap", "String", "string", "Cord", "cord", "Topstitch", "Binding"]

  predicate HasHardwareKeyword(name: string) {
    exists k :: 0 <= k < |hardwareKeywords| && Contains(name, hardwareKeywords[k])
  }

  /** The classification of a mesh name: the exact table first, then the
      keyword heuristics, then the body. */
  function Classify(name: string): (r: PartInfo)
    ensures r.materialPartId == SlotOf(r.partType)
    ensures r.materialPartId.None? <==> r.partType == ZipperDetails
  {
    match TableLookup(partMapping, name)
    case Some(p) => PartInfo(p, SlotOf(p))
    case None =>
      if Contains(name, "Hood_inside") then PartInfo(HoodInterior, Some(Lining))
      else if HasHardwareKeyword(name) then PartInfo(ZipperDetails, None)
      else PartInfo(Body, Some(Main))
  }

  /** `getMeshPartType`: the search over `Object.entries(partMapping)` with an
      early return, then the chain of `includes` tests. */
  method GetMeshPartType(meshName: string) returns (r: PartInfo)
    ensures r == Classify(meshName)
  {
    for i := 0 to |partMapping|
      invariant TableLookup(partMapping, meshName) == TableLookup(partMapping[i..], meshName)
    {
      assert partMapping[i..][1..] == partMapping[i + 1..];
      var (partType, meshNames) := partMapping[i];
      if meshName in meshNames {
        var slot := if partType == ZipperDetails then None
                    else if partType == HoodInterior then Some(Lining)
                    else Some(Main);
        return PartInfo(partType, slot);
      }
    }
    if Contains(meshName, "Hood_inside") {
      r := PartInfo(HoodInterior, Some(Lining));
    } else {
      var isHardware := false;
      for k := 0 to |hardwareKeywords|
        invariant isHardware <==> exists j :: 0 <= j < k && Contains(meshName, hardwareKeywords[j])
      {
        isHardware := isHardware || Contains(meshName, hardwareKeywords[k]);
      }
      r := if isHardware then PartInfo(ZipperDetails, None) else PartInfo(Body, Some(Main));
    }
  }

  // In a table whose lists are pairwise disjoint, a listed name is found
  // under its own entry, whatever entries precede it.
  lemma {:induction false} LookupListed(table: seq<(PartType, seq<string>)>, i: nat, name: string)
    requires PairwiseDisjoint(table)
    requires i < |table| && name in table[i].1
    ensures TableLookup(table, name) == Some(table[i].0)
  {
    if i > 0 {
      assert name !in table[0].1;
      assert PairwiseDisjoint(table[1..]) by {
        forall a, b, n | 0 <= a < b < |table[1..]| && n in table[1..][a].1 ensures n !in table[1..][b].1 {
          assert table[1..][a] == table[a + 1] && table[1..][b] == table[b + 1];
        }
      }
      assert table[1..][i - 1] == table[i];
      LookupListed(table[1..], i - 1, name);
    }
  }

  // The lookup fails exactly when no list of the table holds the name.
  lemma {:induction false} LookupUnlisted(table: seq<(PartType, seq<string>)>, name: string)
    ensures TableLookup(table, name).None? <==> forall i :: 0 <= i < |table| ==> name !in table[i].1
  {
    if table != [] {
      LookupUnlisted(table[1..], name);
      if name !in table[0].1 {
        forall i | 1 <= i < |table| ensures table[i] == table[1..][i - 1] { }
      }
    }
  }

  // For disjoint tables, reordering the entries (Object.entries order)
  // cannot change the lookup.
  lemma LookupOrderIndependent(t1: seq<(PartType, seq<string>)>, t2: seq<(PartType, seq<string>)>, name: string)
    requires PairwiseDisjoint(t1) && PairwiseDisjoint(t2)
    requires forall e :: e in t1 <==> e in t2
    ensures TableLookup(t1, name) == TableLookup(t2, name)
  {
    LookupUnlisted(t1, name);
    LookupUnlisted(t2, name);
    if i :| 0 <= i < |t1| && name in t1[i].1 {
      assert t1[i] in t2;
      var j :| 0 <= j < |t2| && t2[j] == t1[i];
      LookupListed(t1, i, name);
      LookupListed(t2, j, name);
    } else {
      forall j | 0 <= j < |t2| ensures name !in t2[j].1 {
        assert t2[j] in t1;
      }
    }
  }

  // A name found in a partMapping list yields that part, with the slot
  // null/"lining"/"main" for zipperDetails/hoodInterior/body.
  lemma TabledNameClassifies(i: nat, name: string)
    requires i < |partMapping| && name in partMapping[i].1
    ensures Classify(name) == PartInfo(partMapping[i].0, SlotOf(partMapping[i].0))
  {
    PartMappingDisjoint();
    LookupListed(partMapping, i, name);
  }

  // The exact table wins over the heuristics: "Trim" and "Stopper" contain
  // hardware keywords yet classify as the lining.
  lemma TableBeatsKeywords()
    ensures Classify("Trim") == PartInfo(HoodInterior, Some(Lining))
    ensures Classify("Stopper") == PartInfo(HoodInterior, Some(Lining))
  {
    TabledNameClassifies(1, "Trim");
    TabledNameClassifies(1, "Stopper");
  }

  // An untabled name containing "Hood_inside" is the lining, ahead of the
  // hardware keywords.
  lemma HoodInsideBeforeHardware(name: string)
    requires forall i :: 0 <= i < |partMapping| ==> name !in partMapping[i].1
    requires Contains(name, "Hood_inside")
    ensures Classify(name) == PartInfo(HoodInterior, Some(Lining))
  {
    LookupUnlisted(partMapping, name);
  }

  lemma HoodInsideZipperIsLining()
    ensures Classify("Hood_inside_Zipper") == PartInfo(HoodInterior, Some(Lining))
  {
    var name := "Hood_inside" + "_Zipper";
    assert name == "Hood_inside_Zipper";
    assert forall i :: 0 <= i < |partMapping| ==> name !in partMapping[i].1;
    PrefixOfConcat("Hood_inside", "_Zipper");
    HoodInsideBeforeHardware(name);
  }

  // An untabled name with a hardware keyword and no "Hood_inside" is
  // zipperDetails with a null slot.
  lemma UntabledHardware(name: string)
    requires forall i :: 0 <= i < |partMapping| ==> name !in partMapping[i].1
    requires !Contains(name, "Hood_inside")
    requires exists k :: 0 <= k < |hardwareKeywords| && Contains(name, hardwareKeywords[k])
    ensures Classify(name) == PartInfo(ZipperDetails, None)
  {
    LookupUnlisted(partMapping, name);
  }

  // Every other name is body/main.
  lemma UntabledDefault(name: string)
    requires forall i :: 0 <= i < |partMapping| ==> name !in partMapping[i].1
    requires !Contains(name, "Hood_inside")
    requires forall k :: 0 <= k < |hardwareKeywords| ==> !Contains(name, hardwareKeywords[k])
    ensures Classify(name) == PartInfo(Body, Some(Main))
  {
    LookupUnlisted(partMapping, name);
  }

  // The keyword tests are case-sensitive: "zipper" is body/main.
  lemma LowerCaseZipperIsBody()
    ensures Classify("zipper") == PartInfo(Body, Some(Main))
  {
    AbsentFirstChar("zipper", "Hood_inside");
    forall k | 0 <= k < |hardwareKeywords| ensures !Contains("zipper", hardwareKeywords[k]) {
      AbsentFirstChar("zipper", hardwareKeywords[k]);
    }
    UntabledDefault("zipper");
  }
}
