/**
 * The colour configuration of the hoodie: the colour choices offered for each
 * customisable part and the table that assigns the model's mesh names to parts.
 */
module ColorConfig {
  import opened Strings

  /** The three customisable parts; the source spells them "body",
      "hoodInterior" and "zipperDetails". */
  datatype PartType = Body | HoodInterior | ZipperDetails

  datatype ColorOption = ColorOption(name: string, color: string)

  /** The `colorOptions` object literal, entries in declaration order. */
  const colorOptions: seq<(PartType, seq<ColorOption>)> := [
    (Body, [ColorOption("Green", "#7A8471"), ColorOption("Grey", "#8B8B8B"), ColorOption("Cream", "#E8DCC6")]),
    (HoodInterior, [ColorOption("Green", "#7A8471"), ColorOption("Grey", "#8B8B8B"),
                    ColorOption("Black", "#1C1C1C"), ColorOption("Cream", "#E8DCC6")]),
    (ZipperDetails, [ColorOption("Bronze", "#CD7F32"), ColorOption("Dark Grey", "#4A4A4A"),
                     ColorOption("Light Grey", "#8B8B8B")])
  ]

  /** The `partMapping` object literal, entries in declaration order (the order
      `Object.entries` visits them). */
  const partMapping: seq<(PartType, seq<string>)> := [
    (Body, ["Main_fabric", "Sleeves", "Body_Back", "Body_Front", "Cuff_outside", "Cuff_inside", "Hood_outside"]),
    (HoodInterior, ["Hood_inside", "Lining_fabric", "Trim", "Stopper"]),
    (ZipperDetails, ["Zipper", "Piping_27584630", "Piping_27606017", "Piping_32967410",
                     "Piping_33094821", "Straps_1", "Straps_2"])
  ]

  /** The keys of an object literal, in order. */
  function Keys<V>(table: seq<(PartType, V)>): (ks: seq<PartType>)
    ensures |ks| == |table|
    ensures forall i :: 0 <= i < |table| ==> ks[i] == table[i].0
  {
    if table == [] then [] else [table[0].0] + Keys(table[1..])
  }

  /** No mesh name is listed under two different entries of a table. */
  ghost predicate PairwiseDisjoint(table: seq<(PartType, seq<string>)>) {
    forall i, j, name :: 0 <= i < j < |table| && name in table[i].1 ==> name !in table[j].1
  }

  predicate IsHexDigit(c: char) {
    '0' <= c <= '9' || 'a' <= c <= 'f' || 'A' <= c <= 'F'
  }

  /** A CSS colour of the form "#RRGGBB". */
  predicate IsHexColor(s: string) {
    |s| == 7 && s[0] == '#' && forall i :: 1 <= i < 7 ==> IsHexDigit(s[i])
  }

  /** The options of every part are well formed: "#RRGGBB" colours, no name twice. */
  ghost predicate WellFormedOptions(options: seq<ColorOption>) {
    && (forall k :: 0 <= k < |options| ==> IsHexColor(options[k].color))
    && (forall k, l :: 0 <= k < l < |options| ==> options[k].name != options[l].name)
  }

  function HexDigitValue(c: char): (v: nat)
    requires IsHexDigit(c)
    ensures v < 16
  {
    if '0' <= c <= '9' then c as nat - '0' as nat
    else if 'a' <= c <= 'f' then c as nat - 'a' as nat + 10
    else c as nat - 'A' as nat + 10
  }

  function Pow16(n: nat): (p: nat)
    ensures p > 0
  {
    if n == 0 then 1 else 16 * Pow16(n - 1)
  }

  /** The value of the hex digits of `s`, most significant first: it fits in
      four bits per digit. */
  function HexValue(s: string): (v: nat)
    requires forall i :: 0 <= i < |s| ==> IsHexDigit(s[i])
    ensures v < Pow16(|s|)
  {
    if s == [] then 0
    else
      var high := HexValue(s[..|s| - 1]);
      assert high * 16 <= (Pow16(|s| - 1) - 1) * 16;
      high * 16 + HexDigitValue(s[|s| - 1])
  }

  // The partMapping lists are pairwise disjoint, so Object.entries order
  // cannot decide a classification.
  lemma PartMappingDisjoint()
    ensures PairwiseDisjoint(partMapping)
  {
    BodyNotInterior();
    BodyNotHardware();
    InteriorNotHardware();
  }

  lemma BodyNotInterior()
    ensures forall name :: name in partMapping[0].1 ==> name !in partMapping[1].1
  {
  }

  lemma BodyNotHardware()
    ensures forall name :: name in partMapping[0].1 ==> name !in partMapping[2].1
  {
  }

  lemma InteriorNotHardware()
    ensures forall name :: name in partMapping[1].1 ==> name !in partMapping[2].1
  {
  }

  // "Hood_inside", "Trim" and "Stopper" are tabled under hoodInterior and not
  // under zipperDetails; "Zipper" and every Piping_* and Straps_* name of the
  // model is tabled under zipperDetails.
  lemma PartMappingPlacement()
    ensures partMapping[1].0 == HoodInterior && partMapping[2].0 == ZipperDetails
    ensures forall name :: name in ["Hood_inside", "Trim", "Stopper"] ==>
              name in partMapping[1].1 && name !in partMapping[2].1
    ensures forall name :: name in ["Zipper", "Piping_27584630", "Piping_27606017", "Piping_32967410",
                                    "Piping_33094821", "Straps_1", "Straps_2"] ==>
              name in partMapping[2].1 && name !in partMapping[0].1 && name !in partMapping[1].1
  {
  }

  // colorOptions has exactly the part keys of partMapping, in the same order.
  lemma OptionKeysMatchMappingKeys()
    ensures Keys(colorOptions) == Keys(partMapping) == [Body, HoodInterior, ZipperDetails]
  {
  }

  // Every option colour is "#RRGGBB" and option names are unique per part.
  lemma ColorOptionsWellFormed()
    ensures forall p :: 0 <= p < |colorOptions| ==> WellFormedOptions(colorOptions[p].1)
  {
    BodyOptionsWellFormed();
    InteriorOptionsWellFormed();
    HardwareOptionsWellFormed();
  }

  lemma BodyOptionsWellFormed()
    ensures WellFormedOptions(colorOptions[0].1)
  {
  }

  lemma InteriorOptionsWellFormed()
    ensures WellFormedOptions(colorOptions[1].1)
  {
  }

  lemma HardwareOptionsWellFormed()
    ensures WellFormedOptions(colorOptions[2].1)
  {
  }

  // Every option colour denotes a 24-bit RGB value.
  lemma {:induction false} OptionColorsAre24Bit()
    ensures forall p, k :: 0 <= p < |colorOptions| && 0 <= k < |colorOptions[p].1| ==>
              IsHexColor(colorOptions[p].1[k].color) && HexValue(colorOptions[p].1[k].color[1..]) < 0x100_0000
  {
    ColorOptionsWellFormed();
    assert Pow16(6) == 0x100_0000;
  }
}
